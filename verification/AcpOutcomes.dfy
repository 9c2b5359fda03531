/**
 * How a durable turn ends (packages/adapters/src/durable-acp-task.ts): what every step makes of every task's
 * status, and that a prompt the harness answers completes with everything it said.
 */
module AcpOutcomes {
  import opened Common
  import opened AcpDispatch
  import Replay

  // ---- statuses ----

  predicate Works(m: Machine, k: nat) {
    m.worker.Some? && m.worker.value.task == k
  }

  /** The harness has answered, every commit begun by then is done, and none failed. */
  predicate EndsWell(m: Machine, k: nat) {
    && Works(m, k) && m.worker.value.stage.Answered? && m.worker.value.unpublished.None?
    && m.worker.value.resolved >= m.worker.value.stage.target && !m.worker.value.failed
  }

  /** The same, but a commit failed, and the phase is one that reattached to a turn. */
  predicate EndsBadly(m: Machine, k: nat) {
    && Works(m, k) && m.worker.value.stage.Answered? && m.worker.value.unpublished.None?
    && m.worker.value.resolved >= m.worker.value.stage.target && m.worker.value.failed && m.worker.value.stage.resumed
  }

  predicate Reattached(m: Machine, k: nat) {
    Works(m, k) && (m.worker.value.stage.Resuming? || (m.worker.value.stage.Answered? && m.worker.value.stage.resumed))
  }

  /** Dispatched is what a task becomes at its checkpoint. */
  predicate Dispatches(m: Machine, e: Event, k: nat) {
    e == Dispatch && Works(m, k) && m.worker.value.stage.Connecting? && k !in m.aborting
  }

  predicate Aborts(m: Machine, e: Event, k: nat) {
    || (e == Abort(k) && k in m.aborting && Open(m, k))
    || (e == Call && Works(m, k) && m.worker.value.stage.Committed? && k !in m.aborting
        && m.pending.Some? && m.pending.value.known && m.pending.value.task == k && m.pending.value.cancelled)
  }

  predicate Fails(recovery: bool, m: Machine, e: Event, k: nat) {
    || (e == Work(k) && m.worker.None? && k < |m.tasks| && m.tasks[k].status.Dispatched? && !recovery)
    || (e == GiveUp(k) && m.worker.None? && Open(m, k))
    || (e == Throw && Reattached(m, k))
    || (e == Settle && EndsBadly(m, k))
  }

  predicate Completes(m: Machine, e: Event, k: nat) {
    e == Settle && EndsWell(m, k)
  }

  function StatusAfter(recovery: bool, m: Machine, e: Event, k: nat): Status
    requires k < |m.tasks|
  {
    if Dispatches(m, e, k) then Dispatched
    else if Completes(m, e, k) then Terminal(Completed)
    else if Fails(recovery, m, e, k) then Terminal(Failed)
    else if Aborts(m, e, k) then Terminal(Aborted)
    else m.tasks[k].status
  }

  /** Old tasks become what the guards say, new ones are queued. */
  predicate Becomes(recovery: bool, m: Machine, e: Event, t: Machine) {
    && |m.tasks| <= |t.tasks|
    && (forall k :: 0 <= k < |m.tasks| ==> t.tasks[k].status == StatusAfter(recovery, m, e, k))
    && (forall k :: |m.tasks| <= k < |t.tasks| ==> t.tasks[k].status == Queued)
    && (|m.tasks| < |t.tasks| ==> e.Prompt?)
  }

  lemma DispatchedStatuses(recovery: bool, m: Machine)
    requires Sound(recovery, m)
    ensures Becomes(recovery, m, Dispatch, DispatchedTask(m))
  {
    hide TaskOk, OperationsOk, CallsOk, WorkerOk;
  }

  lemma CalledStatuses(recovery: bool, m: Machine)
    requires Sound(recovery, m)
    ensures Becomes(recovery, m, Call, Called(m))
  {
    hide TaskOk, OperationsOk, CallsOk, WorkerOk;
  }

  lemma ThrownStatuses(recovery: bool, m: Machine)
    requires Sound(recovery, m)
    ensures Becomes(recovery, m, Throw, Thrown(m))
  {
    hide TaskOk, OperationsOk, CallsOk, WorkerOk;
  }

  lemma SettledStatuses(recovery: bool, m: Machine)
    requires Sound(recovery, m)
    ensures Becomes(recovery, m, Settle, Settled(m))
  {
    hide TaskOk, OperationsOk, CallsOk, WorkerOk;
  }

  predicate Quiet(e: Event) {
    e.Prompt? || e.Interrupt? || e.Emit? || e in {Assign, CancelPrompt, Return, Crash, CommitHead, Publish, Answer}
  }

  lemma QuietStatuses(recovery: bool, m: Machine, e: Event, t: Machine)
    requires Quiet(e) && |m.tasks| <= |t.tasks|
    requires forall k :: 0 <= k < |m.tasks| ==> t.tasks[k].status == m.tasks[k].status
    requires forall k :: |m.tasks| <= k < |t.tasks| ==> t.tasks[k].status == Queued
    requires |m.tasks| < |t.tasks| ==> e.Prompt?
    ensures Becomes(recovery, m, e, t)
  {
    hide Quiet, Dispatches, Completes, Fails, Aborts;
    forall k | 0 <= k < |m.tasks| ensures t.tasks[k].status == StatusAfter(recovery, m, e, k) { QuietOne(recovery, m, e, k); }
  }

  lemma QuietOne(recovery: bool, m: Machine, e: Event, k: nat)
    requires Quiet(e) && k < |m.tasks|
    ensures StatusAfter(recovery, m, e, k) == m.tasks[k].status
  {
  }

  lemma EventsAreQuiet(m: Machine, e: Logged, k: nat)
    requires k < |m.tasks|
    ensures var n := |m.tasks|;
      |Emitted(m, e).tasks| == n && |HeadCommitted(m).tasks| == n && |Published(m).tasks| == n && |AnsweredTask(m).tasks| == n
    ensures Emitted(m, e).tasks[k].status == HeadCommitted(m).tasks[k].status == Published(m).tasks[k].status
         == AnsweredTask(m).tasks[k].status == m.tasks[k].status
  {
  }

  lemma EventStatuses(recovery: bool, m: Machine, e: Logged)
    ensures Becomes(recovery, m, Emit(e), Emitted(m, e)) && Becomes(recovery, m, CommitHead, HeadCommitted(m))
    ensures Becomes(recovery, m, Publish, Published(m)) && Becomes(recovery, m, Answer, AnsweredTask(m))
  {
    hide Becomes;
    NoTaskNoEvent(m, e);
    forall k: nat | k < |m.tasks|
      ensures var n := |m.tasks|;
        |Emitted(m, e).tasks| == n && |HeadCommitted(m).tasks| == n && |Published(m).tasks| == n && |AnsweredTask(m).tasks| == n
      ensures Emitted(m, e).tasks[k].status == HeadCommitted(m).tasks[k].status == Published(m).tasks[k].status
           == AnsweredTask(m).tasks[k].status == m.tasks[k].status
    {
      EventsAreQuiet(m, e, k);
    }
    hide Emitted, HeadCommitted, Published, AnsweredTask;
    QuietStatuses(recovery, m, Emit(e), Emitted(m, e));
    QuietStatuses(recovery, m, CommitHead, HeadCommitted(m));
    QuietStatuses(recovery, m, Publish, Published(m));
    QuietStatuses(recovery, m, Answer, AnsweredTask(m));
  }

  lemma NoTaskNoEvent(m: Machine, e: Logged)
    ensures m.tasks == [] ==> Emitted(m, e) == HeadCommitted(m) == Published(m) == AnsweredTask(m) == m
  {
  }

  lemma EngineStatuses(recovery: bool, m: Machine, k: nat)
    ensures Becomes(recovery, m, Work(k), Worked(recovery, m, k))
    ensures Becomes(recovery, m, GiveUp(k), GivenUp(m, k)) && Becomes(recovery, m, Abort(k), AbortedTask(m, k))
  {
  }

  lemma CallerStatuses(recovery: bool, m: Machine, request: Id, text: string, k: nat)
    ensures Becomes(recovery, m, Prompt(request, text), PromptTask(m, request, text).0)
    ensures Becomes(recovery, m, Assign, Assigned(m)) && Becomes(recovery, m, CancelPrompt, Cancelled(m))
    ensures Becomes(recovery, m, Return, Returned(m)) && Becomes(recovery, m, Crash, Crashed(m))
    ensures Becomes(recovery, m, Interrupt(k), m.(aborting := m.aborting + {k}))
  {
    hide Becomes;
    var t, u := PromptTask(m, request, text).0, Returned(m);
    assert |m.tasks| <= |t.tasks| && forall k :: 0 <= k < |m.tasks| ==> t.tasks[k].status == m.tasks[k].status;
    assert |m.tasks| == |u.tasks| && forall k :: 0 <= k < |m.tasks| ==> u.tasks[k].status == m.tasks[k].status;
    QuietStatuses(recovery, m, Prompt(request, text), t);
    QuietStatuses(recovery, m, Return, u);
    QuietStatuses(recovery, m, Assign, Assigned(m));
    QuietStatuses(recovery, m, CancelPrompt, Cancelled(m));
    QuietStatuses(recovery, m, Crash, Crashed(m));
    QuietStatuses(recovery, m, Interrupt(k), m.(aborting := m.aborting + {k}));
  }

  /** Every step, crash included: a task completes exactly when its phase settles after an answer with every
      awaited commit done and none failed, resumed or not; and it is dispatched, fails or is aborted exactly as
      the guards say. */
  lemma StatusesExactly(recovery: bool, m: Machine, e: Event)
    requires Sound(recovery, m)
    ensures Becomes(recovery, m, e, Step(recovery, m, e))
  {
    hide Becomes, Sound, PromptTask, Assigned, Cancelled, Returned, Worked, DispatchedTask, Called, Emitted, HeadCommitted,
      Published, AnsweredTask, Settled, Thrown, GivenUp, AbortedTask, Crashed;
    match e
    case Prompt(request, text) => CallerStatuses(recovery, m, request, text, 0);
    case Assign | CancelPrompt | Return | Crash => CallerStatuses(recovery, m, Uuid(0), "", 0);
    case Interrupt(k) => CallerStatuses(recovery, m, Uuid(0), "", k);
    case Work(k) => EngineStatuses(recovery, m, k);
    case GiveUp(k) => EngineStatuses(recovery, m, k);
    case Abort(k) => EngineStatuses(recovery, m, k);
    case Dispatch => DispatchedStatuses(recovery, m);
    case Call => CalledStatuses(recovery, m);
    case Throw => ThrownStatuses(recovery, m);
    case Settle => SettledStatuses(recovery, m);
    case Emit(l) => EventStatuses(recovery, m, l);
    case CommitHead | Publish | Answer => EventStatuses(recovery, m, Logged(Replay.Other(0), 0));
  }

  // ---- an answered prompt completes ----

  /** What the harness says in these events. */
  function Said(fs: seq<Event>): seq<Logged> {
    if fs == [] then [] else Said(fs[..|fs| - 1]) + if fs[|fs| - 1].Emit? then [fs[|fs| - 1].logged] else []
  }

  /** Only what happens between the call and the outcome when nothing goes wrong. */
  predicate Talk(fs: seq<Event>) {
    forall i :: 0 <= i < |fs| ==> fs[i].Emit? || fs[i] in {CommitHead, Publish, Answer}
  }

  /** The one prompt of the machine is with the harness, which has said all this; what is logged and what waits
      to be is just that. */
  ghost predicate Talking(m: Machine, said: seq<Logged>) {
    && |m.tasks| == 1 && m.calls == [0] && m.aborting == {} && m.pending == Some(Pending(0, true, false, false))
    && m.worker.Some? && m.worker.value.task == 0 && !m.worker.value.failed
    && (m.worker.value.stage.Prompting? || (m.worker.value.stage.Answered? && m.worker.value.stage.target <= Added(m.worker.value)))
    && var t, w := m.tasks[0], m.worker.value;
    && t.status == Dispatched && t.emitted == said && t.replays == 0
    && t.log + w.chain == said && t.log == t.shown + Unpublished(w)
    && t.bytes == Size(t.log)
  }

  function Begin(request: Id, text: string): seq<Event> {
    [Prompt(request, text), Assign, Work(0), Dispatch, Call]
  }

  lemma {:induction false} SizeOfTwo(a: seq<Logged>, b: seq<Logged>)
    ensures Size(a + b) == Size(a) + Size(b)
    decreases |b|
  {
    if b == [] {
      assert a + b == a;
    } else {
      assert (a + b)[..|a + b| - 1] == a + b[..|b| - 1];
      SizeOfTwo(a, b[..|b| - 1]);
    }
  }

  lemma BeginTalks(request: Id, text: string)
    ensures Talking(Called(DispatchedTask(Worked(false, Assigned(PromptTask(START, request, text).0), 0))), [])
    ensures Talking(Called(DispatchedTask(Worked(true, Assigned(PromptTask(START, request, text).0), 0))), [])
  {
    var a := Assigned(PromptTask(START, request, text).0);
    assert a.tasks == [NewTask(request, text)];
    assert Worked(false, a, 0) == Worked(true, a, 0);
  }

  lemma EmitTalks(m: Machine, said: seq<Logged>, e: Logged)
    requires Talking(m, said)
    ensures Talking(Emitted(m, e), said + [e])
  {
    hide Size;
    var t, w := m.tasks[0], m.worker.value;
    assert t.log + (w.chain + [e]) == said + [e];
  }

  lemma CommitTalks(m: Machine, said: seq<Logged>)
    requires Talking(m, said) && Size(said) <= PROGRESS_LIMIT
    ensures Talking(HeadCommitted(m), said)
    ensures m.worker.value.chain != [] && m.worker.value.unpublished.None? ==>
      var w := HeadCommitted(m).worker.value;
      w.unpublished.Some? && |w.chain| == |m.worker.value.chain| - 1
  {
    var t, w := m.tasks[0], m.worker.value;
    if w.chain != [] && w.unpublished.None? {
      LinkFits(t.log, w.chain);
      hide Size;
      assert t.shown + [] == t.shown;
      assert m.tasks[0 := LoggedTask(t, w.chain[0])] == [LoggedTask(t, w.chain[0])];
    }
  }

  lemma LinkFits(log: seq<Logged>, chain: seq<Logged>)
    requires chain != []
    ensures (log + [chain[0]]) + chain[1..] == log + chain
    ensures Size(log + [chain[0]]) == Size(log) + chain[0].size <= Size(log + chain)
  {
    assert (log + [chain[0]]) + chain[1..] == log + chain;
    SizeOfTwo(log + [chain[0]], chain[1..]);
    SizeMore(log, chain[0]);
  }

  lemma PublishTalks(m: Machine, said: seq<Logged>)
    requires Talking(m, said)
    ensures Talking(Published(m), said)
    ensures var w := Published(m).worker.value; w.unpublished.None? && w.chain == m.worker.value.chain
  {
    hide Size;
    var t, w := m.tasks[0], m.worker.value;
    if w.unpublished.Some? { assert t.shown + [w.unpublished.value] + [] == t.log; }
  }

  lemma AnswerTalks(m: Machine, said: seq<Logged>)
    requires Talking(m, said)
    ensures Talking(AnsweredTask(m), said) && AnsweredTask(m).worker.value.stage.Answered?
    ensures AnsweredTask(m).worker.value.chain == m.worker.value.chain && AnsweredTask(m).worker.value.unpublished == m.worker.value.unpublished
  {
    hide Size;
  }

  lemma {:induction false} TalkTalks(recovery: bool, m: Machine, said: seq<Logged>, fs: seq<Event>)
    requires Talking(m, said) && Talk(fs) && Size(said + Said(fs)) <= PROGRESS_LIMIT
    ensures Talking(Steps(recovery, m, fs), said + Said(fs))
    decreases |fs|
  {
    if fs == [] {
      assert said + [] == said;
    } else {
      var n := |fs| - 1;
      var before, now := Said(fs[..n]), if fs[n].Emit? then [fs[n].logged] else [];
      assert Said(fs) == before + now && said + Said(fs) == (said + before) + now;
      SizeOfTwo(said + before, now);
      assert Talk(fs[..n]) by { forall i | 0 <= i < n ensures fs[..n][i] == fs[i] {} }
      TalkTalks(recovery, m, said, fs[..n]);
      StepsLast(recovery, m, fs);
      hide Size, Talking, Step, Steps;
      OneTalks(recovery, Steps(recovery, m, fs[..n]), said + before, fs[n]);
      assert said + before + [] == said + before;
    }
  }

  lemma OneTalks(recovery: bool, m: Machine, said: seq<Logged>, e: Event)
    requires Talking(m, said) && Size(said) <= PROGRESS_LIMIT && (e.Emit? || e in {CommitHead, Publish, Answer})
    ensures Talking(Step(recovery, m, e), said + if e.Emit? then [e.logged] else [])
  {
    hide Size, Talking, Emitted, HeadCommitted, Published, AnsweredTask;
    assert said + [] == said;
    if e.Emit? { EmitTalks(m, said, e.logged); }
    CommitTalks(m, said);
    PublishTalks(m, said);
    AnswerTalks(m, said);
  }

  lemma {:induction false} StepsLast(recovery: bool, m: Machine, fs: seq<Event>)
    requires fs != []
    ensures Steps(recovery, m, fs) == Step(recovery, Steps(recovery, m, fs[..|fs| - 1]), fs[|fs| - 1])
    decreases fs
  {
    hide Step;
    if |fs| == 1 {
      assert fs[1..] == [];
    } else {
      assert fs[1..][..|fs[1..]| - 1] == fs[..|fs| - 1][1..];
      StepsLast(recovery, Step(recovery, m, fs[0]), fs[1..]);
    }
  }

  lemma {:induction false} StepsTwice(recovery: bool, m: Machine, a: seq<Event>, b: seq<Event>)
    ensures Steps(recovery, m, a + b) == Steps(recovery, Steps(recovery, m, a), b)
    decreases a
  {
    hide Step;
    if a == [] {
      assert a + b == b;
    } else {
      assert (a + b)[1..] == a[1..] + b;
      StepsTwice(recovery, Step(recovery, m, a[0]), a[1..], b);
    }
  }

  /** What is still to be done for a chain of n links. */
  function Commits(n: nat): seq<Event> {
    if n == 0 then [Publish] else [Publish, CommitHead] + Commits(n - 1)
  }

  lemma {:induction false} CommitsFlush(recovery: bool, m: Machine, said: seq<Logged>)
    requires Talking(m, said) && Size(said) <= PROGRESS_LIMIT
    ensures var t := Steps(recovery, m, Commits(|m.worker.value.chain|));
      Talking(t, said) && t.worker.value.chain == [] && t.worker.value.unpublished.None?
    decreases |m.worker.value.chain|
  {
    var n := |m.worker.value.chain|;
    hide Size, Talking, HeadCommitted, Published, Step;
    PublishTalks(m, said);
    var p := Published(m);
    assert Step(recovery, m, Publish) == p by { StepIs(recovery, m); }
    if n == 0 {
      assert [Publish][1..] == [];
    } else {
      WorkerThere(p, said);
      CommitTalks(p, said);
      var q := HeadCommitted(p);
      assert Step(recovery, p, CommitHead) == q by { StepIs(recovery, p); }
      WorkerThere(q, said);
      CommitsFlush(recovery, q, said);
      var es := Commits(n);
      assert es[0] == Publish && es[1..][0] == CommitHead && es[1..][1..] == Commits(n - 1);
    }
  }

  lemma WorkerThere(m: Machine, said: seq<Logged>)
    requires Talking(m, said)
    ensures m.worker.Some?
  {
  }

  lemma StepIs(recovery: bool, m: Machine)
    ensures Step(recovery, m, Publish) == Published(m) && Step(recovery, m, CommitHead) == HeadCommitted(m)
    ensures Step(recovery, m, Answer) == AnsweredTask(m) && Step(recovery, m, Settle) == Settled(m)
    ensures Step(recovery, m, Return) == Returned(m)
  {
  }

  /** The prompt has returned, with everything the harness said logged and shown. */
  ghost predicate Answers(t: Machine, said: seq<Logged>) {
    && t.pending.None? && t.worker.None? && |t.tasks| == 1 && t.calls == [0]
    && t.tasks[0].status == Terminal(Completed) && t.tasks[0].log == said && t.tasks[0].shown == said
  }

  lemma SettleAnswers(m: Machine, said: seq<Logged>)
    requires Talking(m, said) && m.worker.value.chain == [] && m.worker.value.unpublished.None?
    ensures Answers(Returned(Settled(AnsweredTask(m))), said)
    ensures Settled(AnsweredTask(m)).pending == Some(Pending(0, true, false, false))
  {
    hide Size;
    var w, t := m.worker.value, m.tasks[0];
    assert t.log + [] == t.log && t.shown + [] == t.shown;
    var a := AnsweredTask(m);
    assert a.tasks == [a.tasks[0]] && a.tasks[0].log == said && a.tasks[0].shown == said;
    SettledAs(a, said);
  }

  lemma SettledAs(a: Machine, said: seq<Logged>)
    requires Talking(a, said) && a.worker.value.stage.Answered? && a.worker.value.chain == [] && a.worker.value.unpublished.None?
    requires a.tasks[0].log == said && a.tasks[0].shown == said
    ensures Answers(Returned(Settled(a)), said)
  {
    hide Size;
  }

  lemma CompletedAnswers(t: Machine, said: seq<Logged>)
    requires Answers(t, said)
    ensures t.pending.None? && |t.tasks| == 1 && forall k :: 0 <= k < |t.tasks| ==> t.tasks[k].status == Terminal(Completed)
  {
  }

  /** From a new machine: whatever the harness says within 8 MiB, and however its words, their commits and its
      answer interleave, once the rest is committed and the harness has answered, the prompt returns completed,
      and everything said is in the log and was shown, in order. */
  lemma AnsweredPromptsComplete(recovery: bool, request: Id, text: string, fs: seq<Event>)
    requires Talk(fs) && Size(Said(fs)) <= PROGRESS_LIMIT
    ensures var m := Steps(recovery, START, Begin(request, text) + fs);
      && m.worker.Some?
      && Answers(Steps(recovery, m, Commits(|m.worker.value.chain|) + [Answer, Settle, Return]), Said(fs))
  {
    var begun := Steps(recovery, START, Begin(request, text));
    BeginIs(recovery, request, text);
    BeginTalks(request, text);
    StepsTwice(recovery, START, Begin(request, text), fs);
    assert [] + Said(fs) == Said(fs);
    TalkTalks(recovery, begun, [], fs);
    var m := Steps(recovery, begun, fs);
    WorkerThere(m, Said(fs));
    var n := |m.worker.value.chain|;
    CommitsFlush(recovery, m, Said(fs));
    StepsTwice(recovery, m, Commits(n), [Answer, Settle, Return]);
    var u := Steps(recovery, m, Commits(n));
    hide Size, Talking, Answers, Steps, Step, AnsweredTask, Settled, Returned;
    SettleAnswers(u, Said(fs));
    LastThree(recovery, u);
  }

  lemma LastThree(recovery: bool, m: Machine)
    ensures Steps(recovery, m, [Answer, Settle, Return]) == Returned(Settled(AnsweredTask(m)))
  {
    var es := [Answer, Settle, Return];
    assert es[1..] == [Settle, Return] && es[1..][1..] == [Return] && es[1..][1..][1..] == [];
    var a := AnsweredTask(m);
    StepIs(recovery, m);
    StepIs(recovery, a);
    StepIs(recovery, Settled(a));
    hide Step, AnsweredTask, Settled, Returned;
    assert Steps(recovery, Settled(a), [Return]) == Steps(recovery, Returned(Settled(a)), []);
    assert Steps(recovery, a, es[1..]) == Steps(recovery, Settled(a), es[1..][1..]);
  }

  lemma BeginIs(recovery: bool, request: Id, text: string)
    ensures Steps(recovery, START, Begin(request, text))
      == Called(DispatchedTask(Worked(recovery, Assigned(PromptTask(START, request, text).0), 0)))
  {
    var es := Begin(request, text);
    var e1, e2, e3, e4 := es[..1], es[..2], es[..3], es[..4];
    assert es[..5] == es && e4[..3] == e3 && e3[..2] == e2 && e2[..1] == e1 && e1[..0] == [];
    StepsLast(recovery, START, es);
    StepsLast(recovery, START, e4);
    StepsLast(recovery, START, e3);
    StepsLast(recovery, START, e2);
    StepsLast(recovery, START, e1);
    hide PromptTask, Assigned, Worked, DispatchedTask, Called;
  }
}
