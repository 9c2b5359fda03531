/**
 * What the user sees of a durable turn (packages/adapters/src/durable-acp-task.ts): over whole runs, crashes
 * and reattachment included, whatever part of the live stream survived, and however often the log is replayed.
 */
module AcpRecovery {
  import opened Common
  import opened AcpDispatch
  import AcpTheorems
  import Replay
  import ReplayLive

  // ---- what was shown comes from the log, in its order ----

  predicate Sub<T(==)>(a: seq<T>, b: seq<T>) {
    || a == []
    || (b != [] && (Sub(a, b[..|b| - 1]) || (a[|a| - 1] == b[|b| - 1] && Sub(a[..|a| - 1], b[..|b| - 1]))))
  }

  lemma SubMore<T>(a: seq<T>, b: seq<T>, x: T)
    requires Sub(a, b)
    ensures Sub(a, b + [x]) && Sub(a + [x], b + [x])
  {
    assert (a + [x])[..|a|] == a && (b + [x])[..|b|] == b;
  }

  lemma {:induction false} SubMembers<T>(a: seq<T>, b: seq<T>, x: T)
    requires Sub(a, b) && x in a
    ensures x in b
  {
    if Sub(a, b[..|b| - 1]) {
      SubMembers(a, b[..|b| - 1], x);
    } else if a[|a| - 1] != x {
      assert a == a[..|a| - 1] + [a[|a| - 1]];
      SubMembers(a[..|a| - 1], b[..|b| - 1], x);
    }
  }

  /** An event committed but not published yet ends the log. */
  predicate Awaiting(t: Task, e: Logged) {
    t.log != [] && t.log[|t.log| - 1] == e && Sub(t.shown, t.log[..|t.log| - 1])
  }

  ghost predicate ShownOk(m: Machine) {
    && (forall k :: 0 <= k < |m.tasks| ==> Sub(m.tasks[k].shown, m.tasks[k].log))
    && (m.worker.Some? ==> m.worker.value.task < |m.tasks|)
    && (m.worker.Some? && m.worker.value.unpublished.Some? ==>
          Awaiting(m.tasks[m.worker.value.task], m.worker.value.unpublished.value))
  }

  /** A step that commits and publishes nothing. */
  ghost predicate Quiet(m: Machine, u: Machine) {
    && |m.tasks| == |u.tasks|
    && (forall k :: 0 <= k < |m.tasks| ==> u.tasks[k].log == m.tasks[k].log && u.tasks[k].shown == m.tasks[k].shown)
    && (u.worker.Some? ==>
          && u.worker.value.task < |m.tasks|
          && (u.worker.value.unpublished.Some? ==> m.worker.Some? && m.worker.value.task == u.worker.value.task
                                                   && m.worker.value.unpublished == u.worker.value.unpublished))
  }

  lemma QuietCaller(m: Machine, k: nat)
    requires m.worker.Some? ==> m.worker.value.task < |m.tasks|
    ensures Quiet(m, Assigned(m)) && Quiet(m, Cancelled(m)) && Quiet(m, Crashed(m)) && Quiet(m, m.(aborting := m.aborting + {k}))
    ensures Quiet(m, Returned(m))
  {
  }

  lemma QuietStart(recovery: bool, m: Machine, k: nat)
    requires m.worker.Some? ==> m.worker.value.task < |m.tasks|
    ensures Quiet(m, Worked(recovery, m, k)) && Quiet(m, DispatchedTask(m)) && Quiet(m, Called(m))
  {
  }

  lemma QuietTurn(m: Machine, e: Logged)
    requires m.worker.Some? ==> m.worker.value.task < |m.tasks|
    ensures Quiet(m, Emitted(m, e)) && Quiet(m, AnsweredTask(m)) && Quiet(m, Settled(m))
  {
  }

  lemma QuietEnd(m: Machine, k: nat)
    requires m.worker.Some? ==> m.worker.value.task < |m.tasks|
    ensures Quiet(m, Thrown(m)) && Quiet(m, GivenUp(m, k)) && Quiet(m, AbortedTask(m, k))
  {
  }

  lemma QuietStep(recovery: bool, m: Machine, e: Event)
    requires m.worker.Some? ==> m.worker.value.task < |m.tasks|
    requires !e.Prompt? && e != CommitHead && e != Publish
    ensures Quiet(m, Step(recovery, m, e))
  {
    hide Quiet, Assigned, Cancelled, Crashed, Returned, Worked, DispatchedTask, Called, Emitted, AnsweredTask, Settled,
      Thrown, GivenUp, AbortedTask;
    match e
    case Assign | CancelPrompt | Return | Crash => QuietCaller(m, 0);
    case Interrupt(k) => QuietCaller(m, k);
    case Work(k) => QuietStart(recovery, m, k);
    case Dispatch | Call => QuietStart(recovery, m, 0);
    case Emit(l) => QuietTurn(m, l);
    case Answer | Settle => QuietTurn(m, Logged(Replay.Other(0), 0));
    case Throw => QuietEnd(m, 0);
    case GiveUp(k) => QuietEnd(m, k);
    case Abort(k) => QuietEnd(m, k);
  }

  lemma SameLogs(m: Machine, u: Machine)
    requires ShownOk(m) && Quiet(m, u)
    ensures ShownOk(u)
  {
    hide Sub;
  }

  lemma CommitShows(m: Machine)
    requires ShownOk(m)
    ensures ShownOk(HeadCommitted(m))
  {
    if m.worker.Some? && m.worker.value.chain != [] && m.worker.value.unpublished.None? {
      var w := m.worker.value;
      var t := m.tasks[w.task];
      hide Sub;
      SubMore(t.shown, t.log, w.chain[0]);
      assert (t.log + [w.chain[0]])[..|t.log|] == t.log;
    }
  }

  lemma PublishShows(m: Machine)
    requires ShownOk(m)
    ensures ShownOk(Published(m))
  {
    if m.worker.Some? && m.worker.value.unpublished.Some? {
      var w := m.worker.value;
      var t := m.tasks[w.task];
      hide Sub;
      SubMore(t.shown, t.log[..|t.log| - 1], w.unpublished.value);
      assert t.log == t.log[..|t.log| - 1] + [w.unpublished.value];
    }
  }

  lemma StepShows(recovery: bool, m: Machine, e: Event)
    requires ShownOk(m)
    ensures ShownOk(Step(recovery, m, e))
  {
    if e.Prompt? {
      PromptShows(m, e.request, e.text);
    } else if e == CommitHead {
      CommitShows(m);
    } else if e == Publish {
      PublishShows(m);
    } else {
      hide ShownOk, Quiet, Step;
      WorkerIsThere(m);
      QuietStep(recovery, m, e);
      SameLogs(m, Step(recovery, m, e));
    }
  }

  lemma WorkerIsThere(m: Machine)
    requires ShownOk(m)
    ensures m.worker.Some? ==> m.worker.value.task < |m.tasks|
  {
  }

  lemma PromptShows(m: Machine, request: Id, text: string)
    requires ShownOk(m)
    ensures ShownOk(PromptTask(m, request, text).0)
  {
    var u := PromptTask(m, request, text).0;
    assert Sub(NewTask(request, text).shown, NewTask(request, text).log);
    hide Sub;
    assert forall k :: 0 <= k < |m.tasks| ==> u.tasks[k] == m.tasks[k];
  }

  /** Over any run, with or without a way to reattach, what was shown live is a subsequence of the log. */
  lemma {:induction false} RunsShowTheLog(recovery: bool, m: Machine, es: seq<Event>)
    requires ShownOk(m)
    ensures ShownOk(Steps(recovery, m, es))
    decreases es
  {
    if es != [] {
      hide ShownOk, Step;
      StepShows(recovery, m, es[0]);
      RunsShowTheLog(recovery, Step(recovery, m, es[0]), es[1..]);
    }
  }

  // ---- runs that leave no gap ----

  /** The step forgets an event that was committed but not published. */
  predicate Drops(m: Machine, e: Event) {
    && m.worker.Some? && m.worker.value.unpublished.Some?
    && (e == Crash || e == Throw || e == Abort(m.worker.value.task))
  }

  predicate Gapless(recovery: bool, m: Machine, es: seq<Event>)
    decreases es
  {
    es == [] || (!Drops(m, es[0]) && Gapless(recovery, Step(recovery, m, es[0]), es[1..]))
  }

  function Waiting(m: Machine, k: nat): seq<Logged> {
    if m.worker.Some? && m.worker.value.task == k then Unpublished(m.worker.value) else []
  }

  ghost predicate Whole(m: Machine) {
    forall k :: 0 <= k < |m.tasks| ==> m.tasks[k].log == m.tasks[k].shown + Waiting(m, k)
  }

  lemma SameWaiting(m: Machine, u: Machine)
    requires Whole(m) && Quiet(m, u)
    requires forall k :: 0 <= k < |m.tasks| ==> Waiting(u, k) == Waiting(m, k)
    ensures Whole(u)
  {
  }

  lemma HeadWhole(m: Machine)
    requires Whole(m) && (m.worker.Some? ==> m.worker.value.task < |m.tasks|)
    ensures Whole(HeadCommitted(m))
  {
    var u := HeadCommitted(m);
    if m.worker.Some? && m.worker.value.chain != [] && m.worker.value.unpublished.None? {
      forall k | 0 <= k < |u.tasks| ensures u.tasks[k].log == u.tasks[k].shown + Waiting(u, k) {
        assert m.tasks[k].log == m.tasks[k].shown + Waiting(m, k);
        assert m.tasks[k].shown + [] == m.tasks[k].shown;
      }
    }
  }

  lemma PublishWhole(m: Machine)
    requires Whole(m) && (m.worker.Some? ==> m.worker.value.task < |m.tasks|)
    ensures Whole(Published(m))
  {
    var u := Published(m);
    if m.worker.Some? && m.worker.value.unpublished.Some? {
      forall k | 0 <= k < |u.tasks| ensures u.tasks[k].log == u.tasks[k].shown + Waiting(u, k) {
        assert m.tasks[k].log == m.tasks[k].shown + Waiting(m, k);
        assert u.tasks[k].shown + [] == u.tasks[k].shown;
      }
    }
  }

  lemma SettledWaiting(recovery: bool, m: Machine, e: Event, k: nat)
    requires Sound(recovery, m) && k < |m.tasks| && !Drops(m, e) && !e.Prompt? && e != CommitHead && e != Publish
    ensures Waiting(Step(recovery, m, e), k) == Waiting(m, k)
  {
    hide TaskOk, OperationsOk, CallsOk;
  }

  lemma WorkerIsIn(recovery: bool, m: Machine)
    requires Sound(recovery, m)
    ensures m.worker.Some? ==> m.worker.value.task < |m.tasks|
  {
  }

  lemma StepIsWhole(recovery: bool, m: Machine, e: Event)
    requires Sound(recovery, m) && Whole(m) && !Drops(m, e)
    ensures Whole(Step(recovery, m, e))
  {
    hide Whole, Waiting, Quiet;
    WorkerIsIn(recovery, m);
    hide Sound;
    if e.Prompt? {
      PromptWhole(m, e.request, e.text);
    } else if e == CommitHead {
      HeadWhole(m);
    } else if e == Publish {
      PublishWhole(m);
    } else {
      hide Step;
      forall k | 0 <= k < |m.tasks| ensures Waiting(Step(recovery, m, e), k) == Waiting(m, k) {
        SettledWaiting(recovery, m, e, k);
      }
      QuietStep(recovery, m, e);
      SameWaiting(m, Step(recovery, m, e));
    }
  }

  lemma PromptWhole(m: Machine, request: Id, text: string)
    requires Whole(m) && (m.worker.Some? ==> m.worker.value.task < |m.tasks|)
    ensures Whole(PromptTask(m, request, text).0)
  {
    var u := PromptTask(m, request, text).0;
    assert forall k :: 0 <= k < |m.tasks| ==> u.tasks[k] == m.tasks[k];
    assert forall k :: Waiting(u, k) == Waiting(m, k);
  }

  lemma {:induction false} GaplessIsWhole(recovery: bool, m: Machine, es: seq<Event>)
    requires Sound(recovery, m) && Whole(m) && Gapless(recovery, m, es)
    ensures Whole(Steps(recovery, m, es))
    decreases es
  {
    if es != [] {
      hide Sound, Whole, Step, Drops;
      StepIsSound(recovery, m, es[0]);
      StepIsWhole(recovery, m, es[0]);
      GaplessIsWhole(recovery, Step(recovery, m, es[0]), es[1..]);
    }
  }

  /** Without a way to reattach, or over any run that forgets no committed event, the user is never more than
      one committed event behind the log, and never ahead of it. */
  lemma LiveIsAPrefixOfTheLog(recovery: bool, es: seq<Event>, k: nat)
    requires k < |Steps(recovery, START, es).tasks| && (recovery ==> Gapless(recovery, START, es))
    ensures var t := Steps(recovery, START, es).tasks[k]; t.shown <= t.log && |t.log| <= |t.shown| + 1
  {
    AcpTheorems.RunsAreSound(recovery, START, es);
    if recovery { GaplessIsWhole(recovery, START, es); }
  }

  // ---- crash, part of the stream kept, and replays ----

  function Events(log: seq<Logged>): (es: seq<Replay.Event>)
    ensures |es| == |log|
  {
    seq(|log|, i requires 0 <= i < |log| => log[i].event)
  }

  function Replays(es: seq<Replay.Event>, n: nat): seq<Replay.Event> {
    if n == 0 then [] else Replays(es, n - 1) + Replay.Replayed(es)
  }

  /** The transcript when these live events survived and the log was then replayed n times. */
  function Seen(turn: string, attempt: Option<string>, base: seq<Replay.Line>, kept: seq<Logged>, log: seq<Logged>, n: nat): seq<Replay.Line> {
    Replay.ShowAll(turn, attempt, Replay.ShowAll(turn, attempt, base, Events(kept)), Replays(Events(log), n))
  }

  lemma ShowTwice(turn: string, attempt: Option<string>, lines: seq<Replay.Line>, a: seq<Replay.Event>, b: seq<Replay.Event>)
    ensures Replay.ShowAll(turn, attempt, lines, a + b) == Replay.ShowAll(turn, attempt, Replay.ShowAll(turn, attempt, lines, a), b)
  {
    hide Replay.Writes, Replay.PutAll;
    Replay.WritesTwo(turn, attempt, a, b);
    Replay.PutTwo(lines, Replay.Writes(turn, attempt, a), Replay.Writes(turn, attempt, b));
  }

  /** Any number of replays does what one does. */
  lemma {:induction false} OneReplayIsEnough(turn: string, attempt: Option<string>, base: seq<Replay.Line>, kept: seq<Logged>, log: seq<Logged>, n: nat)
    requires 0 < n
    ensures Seen(turn, attempt, base, kept, log, n) == ReplayLive.Recovered(turn, attempt, base, Events(kept), Events(log))
  {
    hide Replay.ShowAll, Replay.Replayed, Events;
    var es := Events(log);
    var here := Replay.ShowAll(turn, attempt, base, Events(kept));
    if n == 1 {
      assert Replays(es, 0) + Replay.Replayed(es) == Replay.Replayed(es);
    } else {
      OneReplayIsEnough(turn, attempt, base, kept, log, n - 1);
      ShowTwice(turn, attempt, here, Replays(es, n - 1), Replay.Replayed(es));
      ReplayLive.ReplayTwice(turn, attempt, here, es);
    }
  }

  lemma KeptIsAmong(turn: string, attempt: Option<string>, t: Task, kept: seq<Logged>)
    requires Sub(t.shown, t.log) && forall e :: e in kept ==> e in t.shown
    ensures ReplayLive.Among(turn, attempt, Events(kept), Events(t.log))
  {
    forall i | 0 <= i < |kept| && kept[i].event.Said?
      ensures Replay.Named(turn, attempt, Events(t.log), Replay.LiveKey(turn, attempt, kept[i].event.id))
    {
      SubMembers(t.shown, t.log, kept[i]);
      var j :| 0 <= j < |t.log| && t.log[j] == kept[i];
      assert Events(t.log)[j].Said?;
    }
  }

  /** Over any run, crashes and reattachment included: whatever of the live stream survived, any number of
      replays restores every message's text, if and only if the turn continues no message of an earlier one. */
  lemma ReplaysRestoreTheTexts(recovery: bool, es: seq<Event>, k: nat, kept: seq<Logged>, n: nat,
                               turn: string, attempt: Option<string>, base: seq<Replay.Line>)
    requires k < |Steps(recovery, START, es).tasks| && 0 < n
    requires var t := Steps(recovery, START, es).tasks[k];
      Replay.ClearlyNamed(turn, attempt, Events(t.log)) && forall e :: e in kept ==> e in t.shown
    ensures var log := Steps(recovery, START, es).tasks[k].log;
      ReplayLive.SameTexts(Seen(turn, attempt, base, kept, log, n), Replay.ShowAll(turn, attempt, base, Events(log))) <==>
        ReplayLive.NoneContinued(turn, attempt, base, Events(log))
  {
    RunsShowTheLog(recovery, START, es);
    var t := Steps(recovery, START, es).tasks[k];
    KeptIsAmong(turn, attempt, t, kept);
    hide *;
    OneReplayIsEnough(turn, attempt, base, kept, t.log, n);
    ReplayLive.TextsAreRestored(turn, attempt, base, Events(kept), Events(t.log));
  }

  /** And the whole transcript, order included, if and only if besides what survived introduced its messages in
      the log's order and skipped none. */
  lemma ReplaysRestoreTheTurn(recovery: bool, es: seq<Event>, k: nat, kept: seq<Logged>, n: nat,
                              turn: string, attempt: Option<string>, base: seq<Replay.Line>)
    requires k < |Steps(recovery, START, es).tasks| && 0 < n
    requires var t := Steps(recovery, START, es).tasks[k];
      Replay.ClearlyNamed(turn, attempt, Events(t.log)) && forall e :: e in kept ==> e in t.shown
    ensures var log := Steps(recovery, START, es).tasks[k].log;
      Seen(turn, attempt, base, kept, log, n) == Replay.ShowAll(turn, attempt, base, Events(log)) <==>
        && ReplayLive.NoneContinued(turn, attempt, base, Events(log))
        && ReplayLive.Newcomers(turn, attempt, base, Events(kept)) <= ReplayLive.Newcomers(turn, attempt, base, Events(log))
  {
    RunsShowTheLog(recovery, START, es);
    var t := Steps(recovery, START, es).tasks[k];
    KeptIsAmong(turn, attempt, t, kept);
    hide *;
    OneReplayIsEnough(turn, attempt, base, kept, t.log, n);
    ReplayLive.TranscriptIsRestored(turn, attempt, base, Events(kept), Events(t.log));
  }

  /** So without a way to reattach, or as long as no committed event was forgotten, a prefix of the live stream
      and any number of replays make the transcript of an uninterrupted turn exactly when nothing is continued. */
  lemma ReplayRestoresTheTurn(recovery: bool, es: seq<Event>, k: nat, saved: nat, n: nat,
                              turn: string, attempt: Option<string>, base: seq<Replay.Line>)
    requires k < |Steps(recovery, START, es).tasks| && 0 < n && (recovery ==> Gapless(recovery, START, es))
    requires var t := Steps(recovery, START, es).tasks[k];
      saved <= |t.shown| && Replay.ClearlyNamed(turn, attempt, Events(t.log))
    ensures var t := Steps(recovery, START, es).tasks[k];
      Seen(turn, attempt, base, t.shown[..saved], t.log, n) == Replay.ShowAll(turn, attempt, base, Events(t.log)) <==>
        ReplayLive.NoneContinued(turn, attempt, base, Events(t.log))
  {
    LiveIsAPrefixOfTheLog(recovery, es, k);
    var t := Steps(recovery, START, es).tasks[k];
    assert Events(t.shown[..saved]) == Events(t.log)[..saved];
    assert forall e :: e in t.shown[..saved] ==> e in t.shown;
    hide *;
    ReplaysRestoreTheTurn(recovery, es, k, t.shown[..saved], n, turn, attempt, base);
    Replay.PrefixOrder(turn, attempt, Replay.Ids(base), Events(t.log), saved);
    NewcomersAre(turn, attempt, base, Events(t.log), saved);
  }

  lemma NewcomersAre(turn: string, attempt: Option<string>, base: seq<Replay.Line>, log: seq<Replay.Event>, k: nat)
    requires k <= |log|
    ensures ReplayLive.Newcomers(turn, attempt, base, log[..k]) == Replay.NewIds(Replay.Ids(base), Replay.Writes(turn, attempt, log[..k]))
    ensures ReplayLive.Newcomers(turn, attempt, base, log) == Replay.NewIds(Replay.Ids(base), Replay.Writes(turn, attempt, log))
  {
  }

  // ---- the run that loses the order ----

  const X := Logged(Replay.Said(Some("x"), "a", false), 1)
  const Y := Logged(Replay.Said(Some("y"), "b", false), 1)

  /** The daemon dies between the commit of x and its publication; the reattached turn says y and completes. */
  const UNTIL_CRASH := [Prompt(Key("r"), "go"), Assign, Work(0), Dispatch, Call, Emit(X), CommitHead, Crash]
  const REATTACHED := [Work(0), Emit(Y), CommitHead, Publish, Answer, Settle]
  const REPEATED := [Prompt(Key("r"), "go"), Assign, Return]

  function Turn(status: Status, log: seq<Logged>, bytes: nat, emitted: seq<Logged>, due: nat, shown: seq<Logged>, replays: nat): Task {
    Task(Key("r"), "go", status, log, bytes, emitted, due, shown, replays)
  }

  function After(t: Task, pending: Option<Pending>, worker: Option<Worker>, calls: seq<nat>): Machine {
    Machine(map[Key("r") := Operation("go", 0)], Some(0), [t], pending, {}, worker, calls)
  }

  lemma {:induction false} StepsTwice(recovery: bool, m: Machine, a: seq<Event>, b: seq<Event>)
    ensures Steps(recovery, m, a + b) == Steps(recovery, Steps(recovery, m, a), b)
    decreases a
  {
    if a == [] {
      assert a + b == b;
    } else {
      assert (a + b)[1..] == a[1..] + b;
      StepsTwice(recovery, Step(recovery, m, a[0]), a[1..], b);
    }
  }

  lemma NextStep(recovery: bool, m: Machine, es: seq<Event>, k: nat)
    requires k < |es|
    ensures Steps(recovery, m, es[..k + 1]) == Step(recovery, Steps(recovery, m, es[..k]), es[k])
  {
    assert es[..k + 1] == es[..k] + [es[k]];
    StepsTwice(recovery, m, es[..k], [es[k]]);
    assert [es[k]][1..] == [];
  }

  const CALLER := Some(Pending(0, true, false, false))
  const ASSIGNED := After(Turn(Queued, [], 0, [], 0, [], 0), CALLER, None, [])
  const COMMITTED := After(Turn(Dispatched, [], 0, [], 0, [], 0), CALLER, Some(Worker(0, Committed, [], 0, None, false)), [])
  const CALLED := After(Turn(Dispatched, [], 0, [], 0, [], 0), CALLER, Some(Worker(0, Prompting, [], 0, None, false)), [0])
  const SAID := After(Turn(Dispatched, [], 0, [X], 0, [], 0), CALLER, Some(Worker(0, Prompting, [X], 0, None, false)), [0])
  const LOGGED := After(Turn(Dispatched, [X], 1, [X], 0, [], 0), CALLER, Some(Worker(0, Prompting, [], 0, Some(X), false)), [0])
  const DEAD := After(Turn(Dispatched, [X], 1, [X], 0, [], 0), None, None, [0])

  lemma ToAssigned()
    ensures Assigned(PromptTask(START, Key("r"), "go").0) == ASSIGNED
  {
    assert START.tasks + [NewTask(Key("r"), "go")] == ASSIGNED.tasks;
  }

  lemma ToCommitted()
    ensures DispatchedTask(Worked(true, ASSIGNED, 0)) == COMMITTED
  {
    assert ASSIGNED.tasks[0 := COMMITTED.tasks[0]] == COMMITTED.tasks;
  }

  lemma ToSaid()
    ensures Called(COMMITTED) == CALLED && Emitted(CALLED, X) == SAID
  {
    assert CALLED.calls == COMMITTED.calls + [0];
    assert [] + [X] == [X];
    assert CALLED.tasks[0 := SAID.tasks[0]] == SAID.tasks;
  }

  lemma ToDead()
    ensures HeadCommitted(SAID) == LOGGED && Crashed(LOGGED) == DEAD
  {
    assert [] + [X] == [X] && [X][1..] == [];
    assert SAID.tasks[0 := LOGGED.tasks[0]] == LOGGED.tasks;
  }

  lemma UntilCrash()
    ensures Steps(true, START, UNTIL_CRASH) == DEAD
  {
    hide PromptTask, Assigned, Worked, DispatchedTask, Called, Emitted, HeadCommitted, Crashed, Steps;
    ToAssigned();
    ToCommitted();
    ToSaid();
    ToDead();
    EightSteps(START, Key("r"), "go", 0, X);
  }

  lemma EightSteps(m: Machine, request: Id, text: string, k: nat, e: Logged)
    ensures Steps(true, m, [Prompt(request, text), Assign, Work(k), Dispatch, Call, Emit(e), CommitHead, Crash])
      == Crashed(HeadCommitted(Emitted(Called(DispatchedTask(Worked(true, Assigned(PromptTask(m, request, text).0), k))), e)))
  {
    hide PromptTask, Assigned, Worked, DispatchedTask, Called, Emitted, HeadCommitted, Crashed;
    var es := [Prompt(request, text), Assign, Work(k), Dispatch, Call, Emit(e), CommitHead, Crash];
    assert es[..0] == [] && es[..8] == es;
    NextStep(true, m, es, 0);
    NextStep(true, m, es, 1);
    NextStep(true, m, es, 2);
    NextStep(true, m, es, 3);
    NextStep(true, m, es, 4);
    NextStep(true, m, es, 5);
    NextStep(true, m, es, 6);
    NextStep(true, m, es, 7);
  }

  const RESUMED := After(Turn(Dispatched, [X], 1, [X, Y], 0, [], 0), None, Some(Worker(0, Resuming, [Y], 0, None, false)), [0])
  const RELOGGED := After(Turn(Dispatched, [X, Y], 2, [X, Y], 0, [], 0), None, Some(Worker(0, Resuming, [], 0, Some(Y), false)), [0])
  const SHOWN := After(Turn(Dispatched, [X, Y], 2, [X, Y], 0, [Y], 0), None, Some(Worker(0, Resuming, [], 1, None, false)), [0])
  const ANSWERED := After(Turn(Dispatched, [X, Y], 2, [X, Y], 2, [Y], 0), None, Some(Worker(0, Answered(1, true), [], 1, None, false)), [0])
  const DONE := After(Turn(Terminal(Completed), [X, Y], 2, [X, Y], 2, [Y], 0), None, None, [0])
  const REPLAYED := After(Turn(Terminal(Completed), [X, Y], 2, [X, Y], 2, [Y], 1), None, None, [0])

  lemma ToResumed()
    ensures Emitted(Worked(true, DEAD, 0), Y) == RESUMED
  {
    assert [] + [Y] == [Y] && [X] + [Y] == [X, Y];
    assert DEAD.tasks[0 := RESUMED.tasks[0]] == RESUMED.tasks;
  }

  lemma ToRelogged()
    ensures HeadCommitted(RESUMED) == RELOGGED
  {
    assert [Y][1..] == [] && [X] + [Y] == [X, Y];
    assert RESUMED.tasks[0 := RELOGGED.tasks[0]] == RELOGGED.tasks;
  }

  lemma ToAnswered()
    ensures Published(RELOGGED) == SHOWN && AnsweredTask(SHOWN) == ANSWERED && Settled(ANSWERED) == DONE
  {
    assert [] + [Y] == [Y];
    assert RELOGGED.tasks[0 := SHOWN.tasks[0]] == SHOWN.tasks;
    assert SHOWN.tasks[0 := ANSWERED.tasks[0]] == ANSWERED.tasks;
    assert ANSWERED.tasks[0 := DONE.tasks[0]] == DONE.tasks;
  }

  lemma Reattached()
    ensures Steps(true, DEAD, REATTACHED) == DONE
  {
    hide Emitted, Worked, HeadCommitted, Published, AnsweredTask, Settled;
    ToResumed();
    ToRelogged();
    ToAnswered();
    var es := REATTACHED;
    assert es[..0] == [] && es[..6] == es;
    NextStep(true, DEAD, es, 0);
    NextStep(true, DEAD, es, 1);
    NextStep(true, DEAD, es, 2);
    NextStep(true, DEAD, es, 3);
    NextStep(true, DEAD, es, 4);
    NextStep(true, DEAD, es, 5);
  }

  lemma ToReplayed()
    ensures Returned(Assigned(PromptTask(DONE, Key("r"), "go").0)) == REPLAYED
  {
    assert DONE.tasks[0 := REPLAYED.tasks[0]] == REPLAYED.tasks;
  }

  lemma Repeated()
    ensures Steps(true, DONE, REPEATED) == REPLAYED
  {
    hide Returned, Assigned, PromptTask;
    ToReplayed();
    var es := REPEATED;
    assert es[..0] == [] && es[..3] == es;
    NextStep(true, DONE, es, 0);
    NextStep(true, DONE, es, 1);
    NextStep(true, DONE, es, 2);
  }

  /** From a new machine: the turn completes, its repeated prompt replays the log once, every text is right and
      the two messages have changed places. */
  lemma ReattachedTurnsMayReorder(turn: string)
    ensures var m := Steps(true, START, UNTIL_CRASH + REATTACHED + REPEATED);
      && |m.tasks| == 1 && m.tasks[0].status == Terminal(Completed) && m.tasks[0].replays == 1
      && m.tasks[0].shown == [Y] && m.tasks[0].log == [X, Y]
      && Seen(turn, None, [], m.tasks[0].shown, m.tasks[0].log, 1) == [Replay.Line("y", "b", false), Replay.Line("x", "a", false)]
      && Replay.ShowAll(turn, None, [], Events(m.tasks[0].log)) == [Replay.Line("x", "a", false), Replay.Line("y", "b", false)]
  {
    StepsTwice(true, START, UNTIL_CRASH + REATTACHED, REPEATED);
    StepsTwice(true, START, UNTIL_CRASH, REATTACHED);
    UntilCrash();
    Reattached();
    Repeated();
    hide Steps, Replay.ShowAll, Seen, Events, ReplayLive.Recovered;
    OneReplayIsEnough(turn, None, [], [Y], [X, Y], 1);
    EventsOfTwo();
    TwoShown(turn);
    YReplayed(turn);
  }

  lemma EventsOfTwo()
    ensures Events([Y]) == [Y.event] && Events([X, Y]) == [X.event, Y.event]
  {
  }

  lemma TwoShown(turn: string)
    ensures Replay.ShowAll(turn, None, [], [X.event, Y.event]) == [Replay.Line("x", "a", false), Replay.Line("y", "b", false)]
  {
    hide Replay.Writes, Replay.PutAll;
    ReplayLive.TwoWrites(turn, None, X.event, Y.event);
    ReplayLive.TwoPuts([], Replay.Write("x", "a", false), Replay.Write("y", "b", false));
  }

  lemma YReplayed(turn: string)
    ensures ReplayLive.Recovered(turn, None, [], [Y.event], [X.event, Y.event]) == [Replay.Line("y", "b", false), Replay.Line("x", "a", false)]
  {
    hide Replay.Writes, Replay.PutAll, Replay.CollectAll, ReplayLive.Recovered;
    ReplayLive.RecoveredIs(turn, None, [], [Y.event], [X.event, Y.event]);
    ReplayLive.OneWrite(turn, None, Y.event);
    ReplayLive.OneCollected(X.event);
    ReplayLive.TwoCollected(X.event, Y.event);
    assert Replay.CollectAll([X.event, Y.event]) == [Replay.Entry("x", Some("x"), "a"), Replay.Entry("y", Some("y"), "b")];
    var w, rx, ry := Replay.Write("y", "b", false), Replay.Write("x", "a", true), Replay.Write("y", "b", true);
    var rs := Replay.ReplayWrites(turn, None, Replay.CollectAll([X.event, Y.event]));
    assert rs == [rx, ry];
    Replay.PutTwo([], [w], rs);
    ReplayLive.TwoPuts([], w, w);
    var one := [Replay.Line("y", "b", false)];
    assert Replay.Put([], w) == one;
    ReplayLive.TwoPuts(one, rx, ry);
    assert Replay.Put(one, rx) == [Replay.Line("y", "b", false), Replay.Line("x", "a", false)];
    Replay.IndexIs(Replay.Put(one, rx), "y", 0);
  }
}
