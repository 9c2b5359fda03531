/**
 * Durable dispatch (packages/adapters/src/durable-acp-task.ts): one task per request ID, a checkpoint
 * committed before the harness is told anything, and a progress log committed event by event. The durable
 * documents survive a crash; the pending prompt, the worker and its chain of commits do not. A step ends
 * at a commit or an await.
 */
module AcpDispatch {
  import opened Common
  import Replay

  const PROGRESS_LIMIT := 8 * 1024 * 1024

  /** An event with the byte length of its JSON. */
  datatype Logged = Logged(event: Replay.Event, size: nat)

  datatype Outcome = Completed | Aborted | Failed
  datatype Status = Queued | Dispatched | Terminal(outcome: Outcome)

  /** The durable task and its progress document. `emitted`, `due`, `shown` and `replays` are history the
      program does not keep: what the harness said since the task was last picked up, how much of it had
      been said when the harness answered, what was published live, and how often the log was replayed. */
  datatype Task = Task(
    request: Id, text: string, status: Status, log: seq<Logged>, bytes: nat,
    emitted: seq<Logged>, due: nat, shown: seq<Logged>, replays: nat)

  datatype Operation = Operation(text: string, task: nat)

  /** The one prompt call in flight; `known` once the creating commit has returned. */
  datatype Pending = Pending(task: nat, known: bool, cancelled: bool, replay: bool)

  datatype Stage = Connecting | Committed | Prompting | Resuming | Answered(target: nat, resumed: bool)

  /** The suspended phase: `chain` is the promise chain of commits, `resolved` how much of it is done. */
  datatype Worker = Worker(
    task: nat, stage: Stage, chain: seq<Logged>, resolved: nat, unpublished: Option<Logged>, failed: bool)

  datatype Machine = Machine(
    operations: map<Id, Operation>, active: Option<nat>, tasks: seq<Task>,
    pending: Option<Pending>, aborting: set<nat>, worker: Option<Worker>, calls: seq<nat>)

  const START := Machine(map[], None, [], None, {}, None, [])

  datatype Event =
    | Prompt(request: Id, text: string)
    | Assign
    | CancelPrompt
    | Interrupt(task: nat)
    | Work(task: nat)
    | Dispatch
    | Call
    | Emit(logged: Logged)
    | CommitHead
    | Publish
    | Answer
    | Settle
    | Throw
    | GiveUp(task: nat)
    | Abort(task: nat)
    | Return
    | Crash

  predicate Open(m: Machine, k: nat) {
    k < |m.tasks| && !m.tasks[k].status.Terminal?
  }

  function SetStatus(m: Machine, k: nat, status: Status): Machine
    requires k < |m.tasks|
  {
    m.(tasks := m.tasks[k := m.tasks[k].(status := status)])
  }

  // ---- the prompt call ----

  datatype Reply = Started | Replaying | Conflict | Occupied

  function NewTask(request: Id, text: string): Task {
    Task(request, text, Queued, [], 0, [], 0, [], 0)
  }

  function PromptTask(m: Machine, request: Id, text: string): (Machine, Reply) {
    if m.pending.Some? then (m, Occupied)
    else if request in m.operations then
      if m.operations[request].text != text then (m, Conflict)
      else (m.(pending := Some(Pending(m.operations[request].task, false, false, true))), Replaying)
    else if m.active.Some? && Open(m, m.active.value) then (m, Occupied)
    else
      var k := |m.tasks|;
      (m.(tasks := m.tasks + [NewTask(request, text)], operations := m.operations[request := Operation(text, k)],
          active := Some(k), pending := Some(Pending(k, false, false, false))), Started)
  }

  function Assigned(m: Machine): Machine {
    if m.pending.None? || m.pending.value.known then m
    else
      var p := m.pending.value;
      m.(pending := Some(p.(known := true)), aborting := if p.cancelled then m.aborting + {p.task} else m.aborting)
  }

  function Cancelled(m: Machine): Machine {
    if m.pending.None? then m else m.(pending := Some(m.pending.value.(cancelled := true)))
  }

  /** The prompt call returns once its task is terminal; a repeat publishes the log first. */
  function Returned(m: Machine): Machine {
    if m.pending.None? || !m.pending.value.known || Open(m, m.pending.value.task) || m.pending.value.task >= |m.tasks| then m
    else
      var k := m.pending.value.task;
      var t := m.tasks[k];
      m.(tasks := m.tasks[k := t.(replays := if m.pending.value.replay then t.replays + 1 else t.replays)], pending := None)
  }

  // ---- the task's phases ----

  /** A phase picks the task up. Without a way to reattach, a task found dispatched is given up. */
  function Worked(recovery: bool, m: Machine, k: nat): Machine {
    if m.worker.Some? || !Open(m, k) then m
    else if m.tasks[k].status.Queued? then m.(worker := Some(Worker(k, Connecting, [], 0, None, false)))
    else if recovery then
      m.(worker := Some(Worker(k, Resuming, [], 0, None, false)),
         tasks := m.tasks[k := m.tasks[k].(emitted := m.tasks[k].log, due := 0)])
    else SetStatus(m, k, Terminal(Failed))
  }

  function DispatchedTask(m: Machine): Machine {
    if m.worker.None? || !m.worker.value.stage.Connecting? || m.worker.value.task >= |m.tasks| then m
    else
      var w := m.worker.value;
      if w.task in m.aborting then m.(worker := None)
      else SetStatus(m, w.task, Dispatched).(worker := Some(w.(stage := Committed)))
  }

  /** The cancellation checks and the call run without an await between them. */
  function Called(m: Machine): Machine {
    if m.worker.None? || !m.worker.value.stage.Committed? || m.worker.value.task >= |m.tasks| then m
    else
      var w := m.worker.value;
      if w.task in m.aborting then m.(worker := None)
      else if m.pending.Some? && m.pending.value.known && m.pending.value.task == w.task && m.pending.value.cancelled then
        SetStatus(m, w.task, Terminal(Aborted)).(worker := None)
      else m.(worker := Some(w.(stage := Prompting)), calls := m.calls + [w.task])
  }

  predicate Listening(w: Worker) {
    w.stage.Prompting? || w.stage.Resuming? || w.stage.Answered?
  }

  function Emitted(m: Machine, e: Logged): Machine {
    if m.worker.None? || !Listening(m.worker.value) || m.worker.value.task >= |m.tasks| then m
    else
      var w := m.worker.value;
      var t := m.tasks[w.task];
      m.(worker := Some(w.(chain := w.chain + [e])), tasks := m.tasks[w.task := t.(emitted := t.emitted + [e])])
  }

  function HeadCommitted(m: Machine): Machine {
    if m.worker.None? || m.worker.value.chain == [] || m.worker.value.unpublished.Some? || m.worker.value.task >= |m.tasks| then m
    else
      var w := m.worker.value;
      var t := m.tasks[w.task];
      var e := w.chain[0];
      if t.bytes + e.size > PROGRESS_LIMIT then
        m.(worker := Some(w.(chain := w.chain[1..], resolved := w.resolved + 1, failed := true)))
      else
        m.(worker := Some(w.(chain := w.chain[1..], unpublished := Some(e))),
           tasks := m.tasks[w.task := t.(log := t.log + [e], bytes := t.bytes + e.size)])
  }

  function Published(m: Machine): Machine {
    if m.worker.None? || m.worker.value.unpublished.None? || m.worker.value.task >= |m.tasks| then m
    else
      var w := m.worker.value;
      var t := m.tasks[w.task];
      m.(worker := Some(w.(unpublished := None, resolved := w.resolved + 1)),
         tasks := m.tasks[w.task := t.(shown := t.shown + [w.unpublished.value])])
  }

  /** Commits begun so far. */
  function Added(w: Worker): nat {
    w.resolved + |w.chain| + if w.unpublished.Some? then 1 else 0
  }

  /** The harness answers; the phase now waits for the commits begun until here. */
  function AnsweredTask(m: Machine): Machine {
    if m.worker.None? || !(m.worker.value.stage.Prompting? || m.worker.value.stage.Resuming?) || m.worker.value.task >= |m.tasks| then m
    else
      var w := m.worker.value;
      var t := m.tasks[w.task];
      m.(worker := Some(w.(stage := Answered(Added(w), w.stage.Resuming?))),
         tasks := m.tasks[w.task := t.(due := |t.emitted|)])
  }

  function Settled(m: Machine): Machine {
    if m.worker.None? || !m.worker.value.stage.Answered? || m.worker.value.task >= |m.tasks| then m
    else
      var w := m.worker.value;
      if w.resolved < w.stage.target || w.unpublished.Some? then m
      else if !w.failed then SetStatus(m, w.task, Terminal(Completed)).(worker := None)
      else if w.stage.resumed then SetStatus(m, w.task, Terminal(Failed)).(worker := None)
      else m.(worker := None)
  }

  /** A phase throws: only the resuming phase turns that into an outcome itself. */
  function Thrown(m: Machine): Machine {
    if m.worker.None? || m.worker.value.task >= |m.tasks| then m
    else
      var w := m.worker.value;
      if w.stage.Resuming? || (w.stage.Answered? && w.stage.resumed) then
        SetStatus(m, w.task, Terminal(Failed)).(worker := None)
      else m.(worker := None)
  }

  /** The engine gives up on a task whose phase threw; whether and when is its own affair. */
  function GivenUp(m: Machine, k: nat): Machine {
    if m.worker.Some? || !Open(m, k) then m else SetStatus(m, k, Terminal(Failed))
  }

  function AbortedTask(m: Machine, k: nat): Machine {
    if k !in m.aborting || !Open(m, k) then m
    else
      SetStatus(m, k, Terminal(Aborted)).(worker := if m.worker.Some? && m.worker.value.task == k then None else m.worker)
  }

  function Crashed(m: Machine): Machine {
    m.(pending := None, aborting := {}, worker := None)
  }

  function Step(recovery: bool, m: Machine, e: Event): Machine {
    match e
    case Prompt(request, text) => PromptTask(m, request, text).0
    case Assign => Assigned(m)
    case CancelPrompt => Cancelled(m)
    case Interrupt(k) => m.(aborting := m.aborting + {k})
    case Work(k) => Worked(recovery, m, k)
    case Dispatch => DispatchedTask(m)
    case Call => Called(m)
    case Emit(e) => Emitted(m, e)
    case CommitHead => HeadCommitted(m)
    case Publish => Published(m)
    case Answer => AnsweredTask(m)
    case Settle => Settled(m)
    case Throw => Thrown(m)
    case GiveUp(k) => GivenUp(m, k)
    case Abort(k) => AbortedTask(m, k)
    case Return => Returned(m)
    case Crash => Crashed(m)
  }

  function Steps(recovery: bool, m: Machine, es: seq<Event>): Machine
    decreases es
  {
    if es == [] then m else Steps(recovery, Step(recovery, m, es[0]), es[1..])
  }

  // ---- what every step keeps ----

  function Size(log: seq<Logged>): nat {
    if log == [] then 0 else Size(log[..|log| - 1]) + log[|log| - 1].size
  }

  ghost predicate TaskOk(recovery: bool, t: Task) {
    && t.bytes == Size(t.log) <= PROGRESS_LIMIT
    && t.due <= |t.emitted|
    && (t.status.Queued? ==> t.log == t.shown == t.emitted == [])
    && (t.status == Terminal(Completed) ==> t.due <= |t.log| && t.log[..t.due] == t.emitted[..t.due])
    && (!recovery ==> t.shown <= t.log && |t.log| <= |t.shown| + 1)
  }

  function Unpublished(w: Worker): seq<Logged> {
    if w.unpublished.Some? then [w.unpublished.value] else []
  }

  ghost predicate WorkerOk(recovery: bool, w: Worker, t: Task) {
    && (w.stage.Connecting? <==> t.status.Queued?)
    && !t.status.Terminal?
    && (w.stage.Connecting? || w.stage.Committed? ==> w.chain == [] && w.unpublished.None? && t.log == [] && t.emitted == [])
    && (w.stage.Resuming? || (w.stage.Answered? && w.stage.resumed) ==> recovery)
    && (!w.failed ==> t.emitted == t.log + w.chain)
    && (w.stage.Answered? ==> w.stage.target <= Added(w) && |t.emitted| - t.due == Added(w) - w.stage.target)
    && (!recovery ==> t.log == t.shown + Unpublished(w))
  }

  /** Requests and tasks stand for each other, one to one, with one text. */
  ghost predicate OperationsOk(m: Machine) {
    && (forall r :: r in m.operations ==>
          var o := m.operations[r]; o.task < |m.tasks| && m.tasks[o.task].request == r && m.tasks[o.task].text == o.text)
    && (forall k :: 0 <= k < |m.tasks| ==> m.tasks[k].request in m.operations && m.operations[m.tasks[k].request].task == k)
  }

  /** No task has been told to the harness twice, and a queued or just committed one not at all. */
  ghost predicate CallsOk(m: Machine) {
    && Distinct(m.calls)
    && (forall i :: 0 <= i < |m.calls| ==> m.calls[i] < |m.tasks| && !m.tasks[m.calls[i]].status.Queued?)
    && (m.worker.Some? && m.worker.value.stage.Committed? ==> m.worker.value.task !in m.calls)
  }

  ghost predicate Sound(recovery: bool, m: Machine) {
    && OperationsOk(m)
    && CallsOk(m)
    && (forall k :: 0 <= k < |m.tasks| ==> TaskOk(recovery, m.tasks[k]))
    && (forall k :: 0 <= k < |m.tasks| && !m.tasks[k].status.Terminal? ==> m.active == Some(k))
    && (m.active.Some? ==> m.active.value < |m.tasks|)
    && (m.pending.Some? ==> m.pending.value.task < |m.tasks|)
    && (m.worker.Some? ==> m.worker.value.task < |m.tasks| && WorkerOk(recovery, m.worker.value, m.tasks[m.worker.value.task]))
  }

  lemma SizeMore(log: seq<Logged>, e: Logged)
    ensures Size(log + [e]) == Size(log) + e.size
  {
    assert (log + [e])[..|log|] == log;
  }

  /** A step that concerns one task: everything about the others is as it was. */
  lemma TaskStep(recovery: bool, m: Machine, k: nat, t: Task, worker: Option<Worker>, calls: seq<nat>)
    requires Sound(recovery, m) && k < |m.tasks| && TaskOk(recovery, t)
    requires t.request == m.tasks[k].request && t.text == m.tasks[k].text
    requires !t.status.Terminal? ==> !m.tasks[k].status.Terminal?
    requires t.status.Queued? ==> m.tasks[k].status.Queued?
    requires worker.None? || (worker.value.task == k && WorkerOk(recovery, worker.value, t))
             || (worker == m.worker && worker.value.task != k)
    requires calls == m.calls || (calls == m.calls + [k] && k !in m.calls && !t.status.Queued?)
    requires worker.Some? && worker.value.stage.Committed? ==> worker.value.task !in calls
    ensures Sound(recovery, m.(tasks := m.tasks[k := t], worker := worker, calls := calls))
  {
    hide TaskOk, WorkerOk;
    var u := m.(tasks := m.tasks[k := t], worker := worker, calls := calls);
    OperationsKept(m, u, k, t);
    assert Distinct(calls);
    assert forall i :: 0 <= i < |calls| ==> calls[i] < |u.tasks| && !u.tasks[calls[i]].status.Queued?;
    assert CallsOk(u);
  }

  lemma OperationsKept(m: Machine, u: Machine, k: nat, t: Task)
    requires OperationsOk(m) && k < |m.tasks| && u.tasks == m.tasks[k := t] && u.operations == m.operations
    requires t.request == m.tasks[k].request && t.text == m.tasks[k].text
    ensures OperationsOk(u)
  {
    forall r | r in u.operations ensures
      var o := u.operations[r]; o.task < |u.tasks| && u.tasks[o.task].request == r && u.tasks[o.task].text == o.text
    {
      var o := m.operations[r];
      assert u.tasks[o.task].request == m.tasks[o.task].request && u.tasks[o.task].text == m.tasks[o.task].text;
    }
    forall j | 0 <= j < |u.tasks| ensures u.tasks[j].request in u.operations && u.operations[u.tasks[j].request].task == j {
      assert u.tasks[j].request == m.tasks[j].request;
    }
  }

  /** A step that touches no task and starts no worker. */
  lemma QuietStep(recovery: bool, m: Machine, u: Machine)
    requires Sound(recovery, m)
    requires u.operations == m.operations && u.active == m.active && u.tasks == m.tasks && u.calls == m.calls
    requires u.worker == m.worker || u.worker.None?
    requires u.pending.Some? ==> u.pending.value.task < |m.tasks|
    ensures Sound(recovery, u)
  {
    hide TaskOk, WorkerOk, OperationsOk;
    assert OperationsOk(u) by { OperationsSame(m, u); }
  }

  lemma OperationsSame(m: Machine, u: Machine)
    requires OperationsOk(m) && u.operations == m.operations && u.tasks == m.tasks
    ensures OperationsOk(u)
  {
  }

  lemma PromptIsSound(recovery: bool, m: Machine, request: Id, text: string)
    requires Sound(recovery, m)
    ensures Sound(recovery, PromptTask(m, request, text).0)
  {
    hide WorkerOk, TaskOk;
    var (u, reply) := PromptTask(m, request, text);
    if reply.Started? {
      NewOperation(m, u, request, text);
      NewTaskIsSound(recovery, request, text);
      assert forall k :: 0 <= k < |m.tasks| ==> u.tasks[k] == m.tasks[k];
      assert forall k :: 0 <= k < |m.tasks| ==> m.tasks[k].status.Terminal?;
    } else {
      QuietStep(recovery, m, u);
    }
  }

  lemma NewTaskIsSound(recovery: bool, request: Id, text: string)
    ensures TaskOk(recovery, NewTask(request, text))
  {
  }

  lemma NewOperation(m: Machine, u: Machine, request: Id, text: string)
    requires OperationsOk(m) && request !in m.operations
    requires u.tasks == m.tasks + [NewTask(request, text)] && u.operations == m.operations[request := Operation(text, |m.tasks|)]
    ensures OperationsOk(u)
  {
    assert forall k :: 0 <= k < |m.tasks| ==> u.tasks[k] == m.tasks[k] && m.tasks[k].request != request;
  }

  lemma CallerIsSound(recovery: bool, m: Machine, k: nat)
    requires Sound(recovery, m)
    ensures Sound(recovery, Assigned(m)) && Sound(recovery, Cancelled(m)) && Sound(recovery, m.(aborting := m.aborting + {k}))
    ensures Sound(recovery, Crashed(m))
  {
    hide Sound;
    assert m.pending.Some? ==> m.pending.value.task < |m.tasks| by { PendingIsKnown(recovery, m); }
    QuietStep(recovery, m, Assigned(m));
    QuietStep(recovery, m, Cancelled(m));
    QuietStep(recovery, m, m.(aborting := m.aborting + {k}));
    QuietStep(recovery, m, Crashed(m));
  }

  lemma PendingIsKnown(recovery: bool, m: Machine)
    requires Sound(recovery, m)
    ensures m.pending.Some? ==> m.pending.value.task < |m.tasks|
  {
  }

  lemma ReturnIsSound(recovery: bool, m: Machine)
    requires Sound(recovery, m)
    ensures Sound(recovery, Returned(m))
  {
    if Returned(m) != m {
      var k := m.pending.value.task;
      var t := Returned(m).tasks[k];
      assert m.worker.None? || m.worker.value.task != k;
      TaskStep(recovery, m, k, t, m.worker, m.calls);
      QuietStep(recovery, m.(tasks := m.tasks[k := t], worker := m.worker, calls := m.calls), Returned(m));
    }
  }

  lemma WorkIsSound(recovery: bool, m: Machine, k: nat)
    requires Sound(recovery, m)
    ensures Sound(recovery, Worked(recovery, m, k))
  {
    var u := Worked(recovery, m, k);
    if m.worker.None? && Open(m, k) {
      assert m.tasks[k := m.tasks[k]] == m.tasks;
      TaskStep(recovery, m, k, u.tasks[k], u.worker, m.calls);
    }
  }

  lemma DispatchIsSound(recovery: bool, m: Machine)
    requires Sound(recovery, m)
    ensures Sound(recovery, DispatchedTask(m))
  {
    var u := DispatchedTask(m);
    if m.worker.Some? && m.worker.value.stage.Connecting? {
      var k := m.worker.value.task;
      assert m.tasks[k := m.tasks[k]] == m.tasks;
      TaskStep(recovery, m, k, u.tasks[k], u.worker, m.calls);
    }
  }

  lemma CallLocally(recovery: bool, t: Task, w: Worker)
    requires TaskOk(recovery, t) && WorkerOk(recovery, w, t) && w.stage.Committed?
    ensures !t.status.Terminal? && !t.status.Queued?
    ensures TaskOk(recovery, t.(status := Terminal(Aborted)))
    ensures WorkerOk(recovery, w.(stage := Prompting), t)
  {
  }

  lemma CallIsSound(recovery: bool, m: Machine)
    requires Sound(recovery, m)
    ensures Sound(recovery, Called(m))
  {
    hide TaskOk, WorkerOk;
    var u := Called(m);
    if m.worker.Some? && m.worker.value.stage.Committed? {
      var k := m.worker.value.task;
      CallLocally(recovery, m.tasks[k], m.worker.value);
      assert m.tasks[k := m.tasks[k]] == m.tasks;
      TaskStep(recovery, m, k, u.tasks[k], u.worker, u.calls);
    }
  }

  lemma EmitLocally(recovery: bool, t: Task, w: Worker, e: Logged)
    requires TaskOk(recovery, t) && WorkerOk(recovery, w, t) && Listening(w)
    ensures !t.status.Terminal? && !t.status.Queued?
    ensures TaskOk(recovery, t.(emitted := t.emitted + [e]))
    ensures WorkerOk(recovery, w.(chain := w.chain + [e]), t.(emitted := t.emitted + [e]))
  {
    assert t.log + (w.chain + [e]) == t.log + w.chain + [e];
  }

  lemma EmitIsSound(recovery: bool, m: Machine, e: Logged)
    requires Sound(recovery, m)
    ensures Sound(recovery, Emitted(m, e))
  {
    hide TaskOk, WorkerOk;
    var u := Emitted(m, e);
    if m.worker.Some? && Listening(m.worker.value) {
      var k := m.worker.value.task;
      EmitLocally(recovery, m.tasks[k], m.worker.value, e);
      TaskStep(recovery, m, k, u.tasks[k], u.worker, m.calls);
    }
  }

  /** A link that fails, because the log would pass 8 MiB, leaves the log alone and fails for good. */
  lemma FailedLink(recovery: bool, t: Task, w: Worker)
    requires WorkerOk(recovery, w, t) && w.chain != [] && w.unpublished.None?
    ensures WorkerOk(recovery, w.(chain := w.chain[1..], resolved := w.resolved + 1, failed := true), t)
  {
    hide TaskOk;
  }

  function LoggedTask(t: Task, e: Logged): Task {
    t.(log := t.log + [e], bytes := t.bytes + e.size)
  }

  /** A link that commits moves the head of the chain to the end of the log. */
  lemma CommittedLink(recovery: bool, t: Task, w: Worker)
    requires WorkerOk(recovery, w, t) && w.chain != [] && w.unpublished.None?
    ensures WorkerOk(recovery, w.(chain := w.chain[1..], unpublished := Some(w.chain[0])), LoggedTask(t, w.chain[0]))
  {
    hide Size;
    assert t.log + w.chain == t.log + [w.chain[0]] + w.chain[1..];
  }

  lemma CommittedTask(recovery: bool, t: Task, w: Worker)
    requires TaskOk(recovery, t) && WorkerOk(recovery, w, t) && w.chain != [] && w.unpublished.None?
    requires t.bytes + w.chain[0].size <= PROGRESS_LIMIT
    ensures TaskOk(recovery, LoggedTask(t, w.chain[0]))
  {
    hide Size;
    SizeMore(t.log, w.chain[0]);
  }

  /** The head of the chain is logged, or fails for good when the log would pass 8 MiB. */
  lemma CommitLocally(recovery: bool, t: Task, w: Worker)
    requires TaskOk(recovery, t) && WorkerOk(recovery, w, t) && w.chain != [] && w.unpublished.None?
    ensures WorkerOk(recovery, w.(chain := w.chain[1..], resolved := w.resolved + 1, failed := true), t)
    ensures t.bytes + w.chain[0].size <= PROGRESS_LIMIT ==>
      && TaskOk(recovery, LoggedTask(t, w.chain[0]))
      && WorkerOk(recovery, w.(chain := w.chain[1..], unpublished := Some(w.chain[0])), LoggedTask(t, w.chain[0]))
  {
    hide TaskOk, WorkerOk;
    FailedLink(recovery, t, w);
    CommittedLink(recovery, t, w);
    if t.bytes + w.chain[0].size <= PROGRESS_LIMIT { CommittedTask(recovery, t, w); }
  }

  lemma CommitIsSound(recovery: bool, m: Machine)
    requires Sound(recovery, m)
    ensures Sound(recovery, HeadCommitted(m))
  {
    hide TaskOk, WorkerOk;
    var u := HeadCommitted(m);
    if m.worker.Some? && m.worker.value.chain != [] && m.worker.value.unpublished.None? {
      var k := m.worker.value.task;
      CommitLocally(recovery, m.tasks[k], m.worker.value);
      assert m.tasks[k := m.tasks[k]] == m.tasks;
      WorkerStage(recovery, m.worker.value, m.tasks[k]);
      TaskStep(recovery, m, k, u.tasks[k], u.worker, m.calls);
    }
  }

  lemma WorkerStage(recovery: bool, w: Worker, t: Task)
    requires WorkerOk(recovery, w, t)
    ensures !t.status.Terminal?
    ensures w.chain != [] ==> !w.stage.Connecting? && !w.stage.Committed?
  {
  }

  lemma PublishIsSound(recovery: bool, m: Machine)
    requires Sound(recovery, m)
    ensures Sound(recovery, Published(m))
  {
    var u := Published(m);
    if m.worker.Some? && m.worker.value.unpublished.Some? {
      var k := m.worker.value.task;
      TaskStep(recovery, m, k, u.tasks[k], u.worker, m.calls);
    }
  }

  lemma AnswerLocally(recovery: bool, t: Task, w: Worker)
    requires TaskOk(recovery, t) && WorkerOk(recovery, w, t) && (w.stage.Prompting? || w.stage.Resuming?)
    ensures TaskOk(recovery, t.(due := |t.emitted|))
    ensures WorkerOk(recovery, w.(stage := Answered(Added(w), w.stage.Resuming?)), t.(due := |t.emitted|))
  {
  }

  lemma AnswerIsSound(recovery: bool, m: Machine)
    requires Sound(recovery, m)
    ensures Sound(recovery, AnsweredTask(m))
  {
    hide TaskOk, WorkerOk;
    var u := AnsweredTask(m);
    if m.worker.Some? && (m.worker.value.stage.Prompting? || m.worker.value.stage.Resuming?) {
      var k := m.worker.value.task;
      AnswerLocally(recovery, m.tasks[k], m.worker.value);
      WorkerStage(recovery, m.worker.value, m.tasks[k]);
      TaskStep(recovery, m, k, u.tasks[k], u.worker, m.calls);
    }
  }

  lemma SettleIsSound(recovery: bool, m: Machine)
    requires Sound(recovery, m)
    ensures Sound(recovery, Settled(m))
  {
    var u := Settled(m);
    if m.worker.Some? && m.worker.value.stage.Answered? {
      var k := m.worker.value.task;
      var t, w := m.tasks[k], m.worker.value;
      assert !w.failed ==> t.emitted[..|t.log|] == t.log;
      assert m.tasks[k := t] == m.tasks;
      TaskStep(recovery, m, k, u.tasks[k], u.worker, m.calls);
    }
  }

  lemma ThrowIsSound(recovery: bool, m: Machine)
    requires Sound(recovery, m)
    ensures Sound(recovery, Thrown(m))
  {
    if m.worker.Some? {
      var k := m.worker.value.task;
      assert m.tasks[k := m.tasks[k]] == m.tasks;
      TaskStep(recovery, m, k, Thrown(m).tasks[k], None, m.calls);
    }
  }

  lemma EndIsSound(recovery: bool, m: Machine, k: nat)
    requires Sound(recovery, m)
    ensures Sound(recovery, GivenUp(m, k)) && Sound(recovery, AbortedTask(m, k))
  {
    if Open(m, k) {
      if m.worker.None? { TaskStep(recovery, m, k, m.tasks[k].(status := Terminal(Failed)), m.worker, m.calls); }
      var u := AbortedTask(m, k);
      if u != m { TaskStep(recovery, m, k, u.tasks[k], u.worker, m.calls); }
    }
  }

  lemma StepIsSound(recovery: bool, m: Machine, e: Event)
    requires Sound(recovery, m)
    ensures Sound(recovery, Step(recovery, m, e))
  {
    hide Sound, PromptTask, Assigned, Cancelled, Returned, Worked, DispatchedTask, Called, Emitted, HeadCommitted,
      Published, AnsweredTask, Settled, Thrown, GivenUp, AbortedTask, Crashed;
    match e
    case Prompt(request, text) => PromptIsSound(recovery, m, request, text);
    case Assign => CallerIsSound(recovery, m, 0);
    case CancelPrompt => CallerIsSound(recovery, m, 0);
    case Interrupt(k) => CallerIsSound(recovery, m, k);
    case Work(k) => WorkIsSound(recovery, m, k);
    case Dispatch => DispatchIsSound(recovery, m);
    case Call => CallIsSound(recovery, m);
    case Emit(e) => EmitIsSound(recovery, m, e);
    case CommitHead => CommitIsSound(recovery, m);
    case Publish => PublishIsSound(recovery, m);
    case Answer => AnswerIsSound(recovery, m);
    case Settle => SettleIsSound(recovery, m);
    case Throw => ThrowIsSound(recovery, m);
    case GiveUp(k) => EndIsSound(recovery, m, k);
    case Abort(k) => EndIsSound(recovery, m, k);
    case Return => ReturnIsSound(recovery, m);
    case Crash => CallerIsSound(recovery, m, 0);
  }
}
