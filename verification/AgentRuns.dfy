/**
 * What the agent gets done when nothing goes wrong (packages/daemon/src/thread-agent.ts, `drain`, `run` and
 * `performHandoff`): a queued submission is told to the harness and answered, the queue is worked off in order, and a
 * handoff carries its summary over to the new harness.
 */
module AgentRuns {
  import opened Common
  import opened Text
  import opened AgentTurn
  import opened Transcript
  import opened Receipts
  import opened AgentQueue
  import opened AgentMachine
  import opened AgentSafety

  lemma {:induction false} StepsMore(cfg: Config, m: Machine, a: seq<Event>, b: seq<Event>)
    ensures Steps(cfg, m, a + b) == Steps(cfg, Steps(cfg, m, a), b)
    decreases a
  {
    hide Step;
    if a == [] {
      assert a + b == b;
    } else {
      assert (a + b)[0] == a[0] && (a + b)[1..] == a[1..] + b;
      StepsMore(cfg, Step(cfg, m, a[0]), a[1..], b);
    }
  }

  lemma StepsTo(cfg: Config, m: Machine, es: seq<Event>, e: Event)
    ensures Steps(cfg, m, es + [e]) == Step(cfg, Steps(cfg, m, es), e)
  {
    hide Step;
    StepsMore(cfg, m, es, [e]);
    var t := Steps(cfg, m, es);
    assert [e][1..] == [] && Steps(cfg, Step(cfg, t, e), []) == Step(cfg, t, e);
  }

  // ---- one turn ----

  /** Nothing is under way, and the connection, if there is one, is idle. */
  predicate Resting(m: Machine) {
    && !Busy(m.mem) && !m.retiring && m.run.None? && m.move.None?
    && (m.active.Some? ==> m.active.value.turn.TurnIdle? && !m.active.value.summary)
  }

  /** The submission that is next. */
  predicate IsNext(m: Machine, n: nat) {
    n < |m.mem.submissions| && m.mem.submissions[n].status == Queued && forall i :: 0 <= i < n ==> m.mem.submissions[i].status != Queued
  }

  /** What the harness is told: the frozen prompt, or a new one, behind the continuation if there is one. */
  function Told(m: Machine, n: nat, rendered: string): string
    requires n < |m.mem.submissions|
  {
    var prompt := m.mem.submissions[n].harnessPrompt.GetOr(rendered);
    match m.mem.continuation
    case None => prompt
    case Some(context) => "Continuation context from the previous harness:\n" + context + "\n\nCurrent request:\n" + prompt
  }

  /** A piece of what a harness says. */
  datatype Piece = Piece(name: Option<string>, text: string, replace: bool)

  function Heard(pieces: seq<Piece>): (es: seq<Event>)
    ensures |es| == |pieces|
  {
    seq(|pieces|, i requires 0 <= i < |pieces| => TextEvent(pieces[i].name, pieces[i].text, pieces[i].replace))
  }

  /** The transcript once these pieces are in it. */
  function Transcribed(ms: seq<Message<MessageId>>, a: Active, pieces: seq<Piece>): seq<Message<MessageId>> {
    if pieces == [] then ms
    else
      var p := pieces[|pieces| - 1];
      ApplyUpdate(Transcribed(ms, a, pieces[..|pieces| - 1]), TextUpdate(a, p.name, p.text, p.replace))
  }

  /** The nth submission of `m` is with the harness, which has said what is in these messages. */
  ghost predicate WithHarness(cfg: Config, m: Machine, n: nat, text: string, session: string, t: Machine, messages: seq<Message<MessageId>>)
    requires n < |m.mem.submissions|
  {
    var q := m.mem.submissions[n];
    && t.run == Some(Run(q.id, q.attempt, text, true, RunPrompting))
    && t.active == Some(Active(TurnRunning, q.id, q.attempt, false))
    && t.mem.submissions == m.mem.submissions[n := q.(status := Running, harnessPrompt := Some(text))]
    && t.mem.messages == messages && t.mem.comments == m.mem.comments
    && t.mem.phase == PhaseRunning && t.mem.continuation.None? && t.mem.handoff.None? && t.move.None? && !t.retiring
    && t.mem.harness == (if m.active.None? then Some(Harness(HarnessId(cfg, m.mem), Some(session))) else m.mem.harness)
    && t.sent == m.sent + [Dispatch(q.attempt.GetOr(q.id), text, HarnessId(cfg, m.mem))]
  }

  lemma TurnBegins(cfg: Config, m: Machine, n: nat, rendered: string, session: string)
    requires Resting(m) && m.mem.handoff.None? && IsNext(m, n)
    ensures WithHarness(cfg, m, n, Told(m, n, rendered), session,
                      Step(cfg, Step(cfg, m, Drain(rendered, true)), Connected(session)), m.mem.messages)
  {
    hide SettleReceipt;
    var q := m.mem.submissions[n];
    var d := Step(cfg, m, Drain(rendered, true));
    assert FirstQueued(m.mem.submissions) == n;
    assert StartText(m.mem, q, rendered) == Told(m, n, rendered);
    assert d.mem.submissions == m.mem.submissions[n := q.(status := Running, harnessPrompt := Some(Told(m, n, rendered)))];
  }

  lemma PieceIsTranscribed(cfg: Config, m: Machine, n: nat, text: string, session: string, t: Machine, messages: seq<Message<MessageId>>, p: Piece)
    requires n < |m.mem.submissions| && WithHarness(cfg, m, n, text, session, t, messages)
    ensures WithHarness(cfg, m, n, text, session, Step(cfg, t, TextEvent(p.name, p.text, p.replace)),
                      ApplyUpdate(messages, TextUpdate(t.active.value, p.name, p.text, p.replace)))
  {
    hide SettleReceipt, ApplyUpdate;
  }

  lemma {:induction false} PiecesAreTranscribed(cfg: Config, m: Machine, n: nat, text: string, session: string, t: Machine, pieces: seq<Piece>)
    requires n < |m.mem.submissions| && WithHarness(cfg, m, n, text, session, t, m.mem.messages)
    ensures WithHarness(cfg, m, n, text, session, Steps(cfg, t, Heard(pieces)), Transcribed(m.mem.messages, t.active.value, pieces))
    decreases |pieces|
  {
    if pieces != [] {
      var k := |pieces| - 1;
      PiecesAreTranscribed(cfg, m, n, text, session, t, pieces[..k]);
      assert Heard(pieces) == Heard(pieces[..k]) + Heard(pieces)[k..];
      var p := pieces[k];
      assert Heard(pieces)[k..] == [TextEvent(p.name, p.text, p.replace)];
      var u := Steps(cfg, t, Heard(pieces[..k]));
      StepsTo(cfg, t, Heard(pieces[..k]), TextEvent(p.name, p.text, p.replace));
      SameConnection(cfg, m, n, text, session, t, u, m.mem.messages, Transcribed(m.mem.messages, t.active.value, pieces[..k]));
      PieceIsTranscribed(cfg, m, n, text, session, u, Transcribed(m.mem.messages, t.active.value, pieces[..k]), p);
    }
  }

  lemma SameConnection(cfg: Config, m: Machine, n: nat, text: string, session: string, t: Machine, u: Machine,
                       a: seq<Message<MessageId>>, b: seq<Message<MessageId>>)
    requires n < |m.mem.submissions| && WithHarness(cfg, m, n, text, session, t, a) && WithHarness(cfg, m, n, text, session, u, b)
    ensures t.active == u.active && t.active.Some?
  {
  }

  function EndOf(outcome: Outcome): Status {
    if outcome == OutcomeCompleted then Completed else Failed
  }

  /** A message of this turn, and of this attempt of it. */
  predicate OfTurnOf(q: Submission, message: Message<MessageId>) {
    && !message.user && message.owner == q.id
    && (q.attempt.Some? ==> message.id.OfAttempt? && Some(message.id.attempt) == q.attempt)
  }

  /** The turn of the nth submission of `m` is over. */
  ghost predicate Ended(cfg: Config, m: Machine, n: nat, text: string, session: string, outcome: Outcome, t: Machine,
                        messages: seq<Message<MessageId>>)
    requires n < |m.mem.submissions|
  {
    var q := m.mem.submissions[n];
    && Resting(t) && t.active == Some(Active(TurnIdle, q.id, q.attempt, false)) && t.mem.phase == PhaseIdle
    && t.mem.submissions == m.mem.submissions[n := q.(status := EndOf(outcome), harnessPrompt := Some(text), cancelled := q.cancelled || outcome == OutcomeCancelled)]
    && |t.mem.messages| == |messages|
    && (forall i :: 0 <= i < |messages| ==>
          t.mem.messages[i] == messages[i].(complete := messages[i].complete || (outcome == OutcomeCompleted && OfTurnOf(q, messages[i]))))
    && t.mem.comments == m.mem.comments && t.mem.continuation.None? && t.mem.handoff.None? && t.disk == t.mem
    && t.mem.harness == (if m.active.None? then Some(Harness(HarnessId(cfg, m.mem), Some(session))) else m.mem.harness)
    && t.sent == m.sent + [Dispatch(q.attempt.GetOr(q.id), text, HarnessId(cfg, m.mem))]
  }

  lemma MessagesEnd(q: Submission, outcome: Outcome, messages: seq<Message<MessageId>>)
    ensures var ended := if outcome.OutcomeCompleted? then FinalizeOwner(messages, q.id, Counter(q.attempt)) else messages;
      && |ended| == |messages|
      && forall i :: 0 <= i < |messages| ==>
           ended[i] == messages[i].(complete := messages[i].complete || (outcome == OutcomeCompleted && OfTurnOf(q, messages[i])))
  {
  }

  lemma TurnEnds(cfg: Config, m: Machine, n: nat, text: string, session: string, outcome: Outcome, t: Machine, messages: seq<Message<MessageId>>)
    requires Sane(m) && n < |m.mem.submissions| && WithHarness(cfg, m, n, text, session, t, messages)
    ensures Ended(cfg, m, n, text, session, outcome, Step(cfg, t, Finish(outcome)), messages)
  {
    SubmissionEnds(cfg, m, n, text, session, outcome, t, messages);
    MessagesEnd(m.mem.submissions[n], outcome, messages);
    hide SettleReceipt, UpdateRun, Finisher, Sane, FinalizeOwner, Counter, OfTurnOf;
  }

  lemma SubmissionEnds(cfg: Config, m: Machine, n: nat, text: string, session: string, outcome: Outcome, t: Machine, messages: seq<Message<MessageId>>)
    requires Sane(m) && n < |m.mem.submissions| && WithHarness(cfg, m, n, text, session, t, messages)
    ensures var q := m.mem.submissions[n];
      UpdateRun(t, Finisher(outcome)) == m.mem.submissions[n :=
        q.(status := EndOf(outcome), harnessPrompt := Some(text), cancelled := q.cancelled || outcome == OutcomeCancelled)]
  {
    var q := m.mem.submissions[n];
    FirstWithId(m, n, t.mem.submissions);
    hide Sane;
    assert Finisher(outcome)(t.mem.submissions[n]) ==
      q.(status := EndOf(outcome), harnessPrompt := Some(text), cancelled := q.cancelled || outcome == OutcomeCancelled);
  }

  lemma FirstWithId(m: Machine, n: nat, subs: seq<Submission>)
    requires Sane(m) && n < |m.mem.submissions| && |subs| == |m.mem.submissions|
    requires forall i :: 0 <= i < |subs| ==> subs[i].id == m.mem.submissions[i].id
    ensures IndexOfSubmission(subs, m.mem.submissions[n].id) == n
  {
    assert DistinctIds(m.mem.submissions);
  }

  function OneTurn(rendered: string, session: string, pieces: seq<Piece>, outcome: Outcome): seq<Event> {
    [Drain(rendered, true), Connected(session)] + Heard(pieces) + [Finish(outcome)]
  }

  /** The connection of the nth submission's turn. */
  function TurnOf(m: Machine, n: nat): Active
    requires n < |m.mem.submissions|
  {
    Active(TurnRunning, m.mem.submissions[n].id, m.mem.submissions[n].attempt, false)
  }

  /** A turn that is left alone: the first queued submission is told to the Thread's harness, once, in its frozen words
      behind any continuation; what the harness says is in the transcript, finished if the turn completed; the
      submission has the turn's outcome; nothing else in the queue changes; and the agent is at rest again. */
  lemma LeftAloneTurnsEnd(cfg: Config, m: Machine, n: nat, rendered: string, session: string, pieces: seq<Piece>, outcome: Outcome)
    requires Sane(m) && Resting(m) && m.mem.handoff.None? && IsNext(m, n)
    ensures Ended(cfg, m, n, Told(m, n, rendered), session, outcome,
                  Steps(cfg, m, OneTurn(rendered, session, pieces, outcome)), Transcribed(m.mem.messages, TurnOf(m, n), pieces))
  {
    var text := Told(m, n, rendered);
    var first := [Drain(rendered, true), Connected(session)];
    TurnBegins(cfg, m, n, rendered, session);
    var d := Step(cfg, m, Drain(rendered, true));
    assert first[1..] == [Connected(session)] && [Connected(session)][1..] == [];
    assert Steps(cfg, m, first) == Step(cfg, d, Connected(session)) by {
      hide Step;
      assert Steps(cfg, d, [Connected(session)]) == Steps(cfg, Step(cfg, d, Connected(session)), []);
    }
    var a := Steps(cfg, m, first);
    assert a.active == Some(TurnOf(m, n));
    hide Step, WithHarness, Ended, Sane, Transcribed, Told, Resting, IsNext;
    PiecesAreTranscribed(cfg, m, n, text, session, a, pieces);
    StepsMore(cfg, m, first, Heard(pieces));
    var b := Steps(cfg, m, first + Heard(pieces));
    StepsTo(cfg, m, first + Heard(pieces), Finish(outcome));
    TurnEnds(cfg, m, n, text, session, outcome, b, Transcribed(m.mem.messages, TurnOf(m, n), pieces));
  }

  // ---- the whole queue ----

  /** The request IDs under which what is queued will go out. */
  function QueuedRequests(subs: seq<Submission>): seq<Id> {
    if subs == [] then []
    else (if subs[0].status == Queued then [subs[0].attempt.GetOr(subs[0].id)] else []) + QueuedRequests(subs[1..])
  }

  function Requests(sent: seq<Dispatch>): (ids: seq<Id>)
    ensures |ids| == |sent|
  {
    seq(|sent|, i requires 0 <= i < |sent| => sent[i].request)
  }

  lemma {:induction false} NextIsFirst(subs: seq<Submission>, n: nat, q: Submission)
    requires n < |subs| && subs[n].status == Queued && (forall i :: 0 <= i < n ==> subs[i].status != Queued) && q.status != Queued
    ensures QueuedRequests(subs) == [subs[n].attempt.GetOr(subs[n].id)] + QueuedRequests(subs[n := q])
    decreases n
  {
    if n > 0 {
      assert subs[n := q][1..] == subs[1..][n - 1 := q];
      NextIsFirst(subs[1..], n - 1, q);
    } else {
      assert subs[0 := q][1..] == subs[1..];
    }
  }

  lemma {:induction false} NoneQueued(subs: seq<Submission>)
    requires forall i :: 0 <= i < |subs| ==> subs[i].status != Queued
    ensures QueuedRequests(subs) == []
  {
    if subs != [] { NoneQueued(subs[1..]); }
  }

  /** Everything that was queued has gone out, in order, and is completed; the rest is as it was. */
  ghost predicate WorkedOff(m: Machine, t: Machine) {
    && Requests(t.sent) == Requests(m.sent) + QueuedRequests(m.mem.submissions)
    && QueuedRequests(t.mem.submissions) == [] && Resting(t)
    && |t.mem.submissions| == |m.mem.submissions|
    && forall i :: 0 <= i < |m.mem.submissions| ==>
         if m.mem.submissions[i].status == Queued then t.mem.submissions[i].status == Completed
         else t.mem.submissions[i] == m.mem.submissions[i]
  }

  /** One of the queued is out and completed. */
  ghost predicate OneDone(m: Machine, n: nat, t: Machine) {
    && IsNext(m, n) && Resting(t) && t.mem.handoff.None?
    && Requests(t.sent) == Requests(m.sent) + [m.mem.submissions[n].attempt.GetOr(m.mem.submissions[n].id)]
    && n < |t.mem.submissions| && t.mem.submissions[n].status == Completed
    && t.mem.submissions == m.mem.submissions[n := t.mem.submissions[n]]
  }

  lemma EndedIsDone(cfg: Config, m: Machine, n: nat, text: string, session: string, t: Machine, messages: seq<Message<MessageId>>)
    requires IsNext(m, n) && Ended(cfg, m, n, text, session, OutcomeCompleted, t, messages)
    ensures OneDone(m, n, t)
  {
    hide Resting;
  }

  lemma TurnIsDone(cfg: Config, m: Machine, n: nat, rendered: string, session: string)
    requires Sane(m) && Resting(m) && m.mem.handoff.None? && IsNext(m, n)
    ensures OneDone(m, n, Steps(cfg, m, OneTurn(rendered, session, [], OutcomeCompleted)))
  {
    LeftAloneTurnsEnd(cfg, m, n, rendered, session, [], OutcomeCompleted);
    hide Steps, OneTurn, Sane, Ended, OneDone, Told, Transcribed, Resting;
    EndedIsDone(cfg, m, n, Told(m, n, rendered), session, Steps(cfg, m, OneTurn(rendered, session, [], OutcomeCompleted)),
                Transcribed(m.mem.messages, TurnOf(m, n), []));
  }

  lemma DoneAndTheRest(m: Machine, n: nat, t: Machine, u: Machine)
    requires OneDone(m, n, t) && WorkedOff(t, u)
    ensures WorkedOff(m, u)
  {
    hide Resting;
    NextIsFirst(m.mem.submissions, n, t.mem.submissions[n]);
    var request := m.mem.submissions[n].attempt.GetOr(m.mem.submissions[n].id);
    var left := QueuedRequests(t.mem.submissions);
    assert (Requests(m.sent) + [request]) + left == Requests(m.sent) + ([request] + left);
  }

  lemma NothingToDo(m: Machine)
    requires Resting(m) && FirstQueued(m.mem.submissions) == |m.mem.submissions|
    ensures WorkedOff(m, m)
  {
    NoneQueued(m.mem.submissions);
  }

  /** An agent at rest that is left alone works off its whole queue, in order: every queued submission goes out once, and
      afterwards nothing is queued. */
  lemma {:induction false} QueueIsWorkedOff(cfg: Config, m: Machine, rendered: string, session: string) returns (es: seq<Event>)
    requires Sane(m) && Resting(m) && m.mem.handoff.None?
    ensures WorkedOff(m, Steps(cfg, m, es))
    decreases |QueuedRequests(m.mem.submissions)|
  {
    hide Resting, Sane, Step, WorkedOff, OneTurn;
    var n := FirstQueued(m.mem.submissions);
    if n == |m.mem.submissions| {
      es := [];
      NothingToDo(m);
    } else {
      var turn := OneTurn(rendered, session, [], OutcomeCompleted);
      TurnIsDone(cfg, m, n, rendered, session);
      var t := Steps(cfg, m, turn);
      AgentSafetyRuns(cfg, m, turn);
      NextIsFirst(m.mem.submissions, n, t.mem.submissions[n]);
      hide Steps;
      var rest := QueueIsWorkedOff(cfg, t, rendered, session);
      es := turn + rest;
      StepsMore(cfg, m, turn, rest);
      DoneAndTheRest(m, n, t, Steps(cfg, t, rest));
    }
  }

  lemma {:induction false} AgentSafetyRuns(cfg: Config, m: Machine, es: seq<Event>)
    requires Sane(m)
    ensures Sane(Steps(cfg, m, es))
    decreases es
  {
    if es != [] {
      hide Sane, Step;
      StepIsSane(cfg, m, es[0]);
      AgentSafetyRuns(cfg, Step(cfg, m, es[0]), es[1..]);
    }
  }

  // ---- a handoff ----

  /** The harness a queued handoff leads to. */
  function Goal(h: Handoff): string {
    h.requested.GetOr(h.target)
  }

  /** What a handoff works from: the newest target, and the harness to go back to. */
  function Intent(m: Machine, h: Handoff): Handoff {
    h.(target := Goal(h), requested := None, source := m.mem.harness)
  }

  /** A handoff is under way and the rest of the Thread is as it was in `m`. */
  ghost predicate Moving(m: Machine, h: Handoff, t: Machine, stage: MoveStage, wish: Option<string>) {
    && t.mem.submissions == m.mem.submissions && t.mem.messages == m.mem.messages && t.mem.comments == m.mem.comments
    && t.mem.continuation == m.mem.continuation && t.mem.phase == PhaseRunning && t.run.None? && t.next == m.next
    && t.move == Some(Move(stage, Intent(m, h), m.mem.harness))
    && t.mem.handoff.Some? && t.mem.handoff.value.requested == wish
    && t.disk.handoff == t.mem.handoff
  }

  /** A handoff at rest that has to ask the old harness for a summary, or needs none. */
  ghost predicate Queues(cfg: Config, m: Machine, h: Handoff) {
    Resting(m) && m.mem.handoff == Some(h) && h.stage.HandoffQueued? && !(h.requested.Some? && HarnessId(cfg, m.mem) == h.requested.value)
  }

  /** The harness once its connection has answered. */
  function AfterConnect(cfg: Config, m: Machine, session: string): Option<Harness> {
    if m.active.None? then Some(Harness(HarnessId(cfg, m.mem), Some(session))) else m.mem.harness
  }

  lemma MoveBegins(cfg: Config, m: Machine, h: Handoff)
    requires Queues(cfg, m, h)
    ensures var t := Step(cfg, m, Drain("", true));
      && Moving(m, h, t, if m.mem.messages == [] then HasText("") else NeedsSummary, None)
      && t.sent == m.sent && t.mem.harness == m.mem.harness && !t.retiring
      && (m.mem.messages != [] ==> t.active == Some(
            if m.active.None? then Active(Starting(false), h.operation, None, false) else m.active.value.(turn := TurnRunning)))
  {
    hide SettleReceipt;
  }

  /** The old harness has been asked for a summary. */
  ghost predicate Asked(cfg: Config, m: Machine, h: Handoff, t: Machine, session: string, prompt: string, wish: Option<string>) {
    && Moving(m, h, t, Summarizing, wish)
    && t.active == Some(Active(TurnRunning, h.operation, None, true)) && !t.retiring
    && t.mem.harness == AfterConnect(cfg, m, session)
    && t.sent == m.sent + [Dispatch(h.operation, prompt, HarnessId(cfg, m.mem))]
    && t.mem.handoff.value.stage.HandoffSummarizing? && t.mem.handoff.value.prompt == Some(prompt)
  }

  lemma SourceConnects(cfg: Config, m: Machine, h: Handoff, t: Machine, session: string)
    requires Queues(cfg, m, h) && Moving(m, h, t, NeedsSummary, None) && t.mem.harness == m.mem.harness && !t.retiring && t.sent == m.sent
    requires t.active == Some(if m.active.None? then Active(Starting(false), h.operation, None, false) else m.active.value.(turn := TurnRunning))
    ensures var u := Step(cfg, t, MoveOn(ConnectSource(session)));
      && Moving(m, h, u, SourceReady, None) && u.mem.harness == AfterConnect(cfg, m, session) && !u.retiring && u.sent == m.sent
      && u.active.Some? && u.active.value.turn == TurnRunning
  {
    hide SettleReceipt;
  }

  lemma SummaryIsAsked(cfg: Config, m: Machine, h: Handoff, t: Machine, session: string, rendered: string)
    requires Queues(cfg, m, h) && Moving(m, h, t, SourceReady, None) && t.mem.harness == AfterConnect(cfg, m, session) && !t.retiring && t.sent == m.sent
    requires t.active.Some? && t.active.value.turn == TurnRunning
    ensures Asked(cfg, m, h, Step(cfg, t, MoveOn(AskSummary(rendered))), session, h.prompt.GetOr(rendered), None)
  {
    hide SettleReceipt;
  }

  /** Neither what the harness says while it summarizes nor a switch, which is noted, disturbs it. */
  lemma SummaryIsPrivate(cfg: Config, m: Machine, h: Handoff, t: Machine, session: string, prompt: string, wish: Option<string>, p: Piece)
    requires Asked(cfg, m, h, t, session, prompt, wish)
    ensures Step(cfg, t, TextEvent(p.name, p.text, p.replace)) == t
  {
  }

  lemma WishIsNoted(cfg: Config, m: Machine, h: Handoff, t: Machine, session: string, prompt: string, wish: Option<string>, target: string)
    requires Asked(cfg, m, h, t, session, prompt, wish) && CanSwitch(cfg, target)
    ensures Asked(cfg, m, h, Step(cfg, t, SwitchHarness(target)), session, prompt, Some(target))
  {
    hide SettleReceipt;
  }

  /** The summary is in hand, and the connection to the old harness is being closed. */
  ghost predicate Leaving(m: Machine, h: Handoff, t: Machine, text: string, wish: Option<string>) {
    && t.move.Some? && t.move.value.stage.Retiring? && t.move.value.stage.text == text
    && Moving(m, h, t, t.move.value.stage, wish) && t.active.None?
    && t.mem.handoff.value.stage == HandoffPrepared(text)
  }

  lemma SummaryIsTaken(cfg: Config, m: Machine, h: Handoff, t: Machine, session: string, prompt: string, wish: Option<string>, text: string)
    requires Asked(cfg, m, h, t, session, prompt, wish) && Trim(text) != ""
    ensures var u := Step(cfg, t, MoveOn(TakeSummary(text))); Moving(m, h, u, HasText(Trim(text)), wish) && u.sent == t.sent
  {
  }

  lemma SummaryIsSaved(cfg: Config, m: Machine, h: Handoff, t: Machine, text: string, wish: Option<string>)
    requires Moving(m, h, t, HasText(text), wish)
    ensures var u := Step(cfg, t, MoveOn(Prepare)); Leaving(m, h, u, text, wish) && u.sent == t.sent && u.disk.handoff == u.mem.handoff
  {
    hide SettleReceipt;
  }

  /** The target has taken over. */
  ghost predicate Arrives(m: Machine, h: Handoff, t: Machine, text: string, session: string, wish: Option<string>) {
    && Resting(t) && t.mem.phase == PhaseIdle && t.disk == t.mem
    && t.mem.harness == Some(Harness(Goal(h), Some(session)))
    && t.mem.continuation == (if text == "" then None else Some(text))
    && t.mem.handoff == (if wish.Some? && wish.value != Goal(h)
                         then Some(Handoff(wish.value, None, Uuid(m.next), t.mem.harness, HandoffQueued, None)) else None)
    && t.mem.submissions == m.mem.submissions && t.mem.messages == m.mem.messages && t.mem.comments == m.mem.comments
  }

  lemma TargetConnects(cfg: Config, m: Machine, h: Handoff, t: Machine, text: string, wish: Option<string>)
    requires Leaving(m, h, t, text, wish)
    ensures var u := Step(cfg, Step(cfg, t, Retired), MoveOn(Retarget));
      && Moving(m, h, u, Retargeted(text), wish) && u.sent == t.sent && !u.retiring
      && u.mem.harness.Some? && u.mem.harness.value.id == Goal(h)
      && u.active == Some(Active(Starting(false), h.operation, None, false))
  {
    hide SettleReceipt;
  }

  lemma TargetAnswers(cfg: Config, m: Machine, h: Handoff, t: Machine, text: string, session: string, wish: Option<string>)
    requires Moving(m, h, t, Retargeted(text), wish) && !t.retiring && t.mem.harness.Some? && t.mem.harness.value.id == Goal(h)
    requires t.active == Some(Active(Starting(false), h.operation, None, false))
    ensures var c := Step(cfg, t, MoveOn(ConnectTarget(session)));
      && Moving(m, h, c, TargetReady(text), wish) && c.sent == t.sent && !c.retiring
      && c.mem.harness == Some(Harness(Goal(h), Some(session)))
      && c.active == Some(Active(TurnRunning, h.operation, None, false))
  {
    hide SettleReceipt;
  }

  lemma TargetIsInCharge(cfg: Config, m: Machine, h: Handoff, c: Machine, text: string, session: string, wish: Option<string>)
    requires Moving(m, h, c, TargetReady(text), wish) && !c.retiring && c.mem.harness == Some(Harness(Goal(h), Some(session)))
    requires c.active == Some(Active(TurnRunning, h.operation, None, false))
    ensures var u := Step(cfg, c, MoveOn(MoveStep.Complete)); Arrives(m, h, u, text, session, wish) && u.sent == c.sent
  {
    hide SettleReceipt;
  }

  lemma TargetTakesOver(cfg: Config, m: Machine, h: Handoff, t: Machine, text: string, session: string, wish: Option<string>)
    requires Moving(m, h, t, Retargeted(text), wish) && !t.retiring && t.mem.harness.Some? && t.mem.harness.value.id == Goal(h)
    requires t.active == Some(Active(Starting(false), h.operation, None, false))
    ensures var u := Step(cfg, Step(cfg, t, MoveOn(ConnectTarget(session))), MoveOn(MoveStep.Complete));
      Arrives(m, h, u, text, session, wish) && u.sent == t.sent
  {
    hide Step, Moving, Arrives;
    TargetAnswers(cfg, m, h, t, text, session, wish);
    TargetIsInCharge(cfg, m, h, Step(cfg, t, MoveOn(ConnectTarget(session))), text, session, wish);
  }

  function AskFor(session: string, rendered: string): seq<Event> {
    [Drain("", true), MoveOn(ConnectSource(session)), MoveOn(AskSummary(rendered))]
  }

  function GoOver(session: string): seq<Event> {
    [MoveOn(Prepare), Retired, MoveOn(Retarget), MoveOn(ConnectTarget(session)), MoveOn(MoveStep.Complete)]
  }

  lemma ThreeSteps(cfg: Config, m: Machine, e: Event, f: Event, g: Event)
    ensures Steps(cfg, m, [e, f, g]) == Step(cfg, Step(cfg, Step(cfg, m, e), f), g)
  {
    hide Step;
    assert [e, f, g][1..] == [f, g] && [f, g][1..] == [g] && [g][1..] == [];
    var a := Step(cfg, m, e);
    var b := Step(cfg, a, f);
    assert Steps(cfg, b, [g]) == Steps(cfg, Step(cfg, b, g), []);
    assert Steps(cfg, a, [f, g]) == Steps(cfg, b, [g]);
  }

  lemma FiveSteps(cfg: Config, m: Machine, e1: Event, e2: Event, e3: Event, e4: Event, e5: Event)
    ensures Steps(cfg, m, [e1, e2, e3, e4, e5]) == Step(cfg, Step(cfg, Step(cfg, Step(cfg, Step(cfg, m, e1), e2), e3), e4), e5)
  {
    hide Step;
    ThreeSteps(cfg, m, e1, e2, e3);
    StepsTo(cfg, m, [e1, e2, e3], e4);
    StepsTo(cfg, m, [e1, e2, e3] + [e4], e5);
    assert [e1, e2, e3] + [e4] + [e5] == [e1, e2, e3, e4, e5];
  }

  /** From the summary in hand to the target in charge. */
  lemma GoesOver(cfg: Config, m: Machine, h: Handoff, t: Machine, text: string, session: string, wish: Option<string>)
    requires Moving(m, h, t, HasText(text), wish)
    ensures var u := Steps(cfg, t, GoOver(session)); Arrives(m, h, u, text, session, wish) && u.sent == t.sent
  {
    FiveSteps(cfg, t, MoveOn(Prepare), Retired, MoveOn(Retarget), MoveOn(ConnectTarget(session)), MoveOn(MoveStep.Complete));
    hide Step, Moving, Leaving, Arrives;
    SummaryIsSaved(cfg, m, h, t, text, wish);
    var p := Step(cfg, t, MoveOn(Prepare));
    TargetConnects(cfg, m, h, p, text, wish);
    TargetTakesOver(cfg, m, h, Step(cfg, Step(cfg, p, Retired), MoveOn(Retarget)), text, session, wish);
  }

  lemma AsksFor(cfg: Config, m: Machine, h: Handoff, session: string, rendered: string)
    requires Queues(cfg, m, h) && m.mem.messages != []
    ensures Asked(cfg, m, h, Steps(cfg, m, AskFor(session, rendered)), session, h.prompt.GetOr(rendered), None)
  {
    ThreeSteps(cfg, m, Drain("", true), MoveOn(ConnectSource(session)), MoveOn(AskSummary(rendered)));
    hide Step, Moving, Queues, Asked, AfterConnect;
    MoveBegins(cfg, m, h);
    var d := Step(cfg, m, Drain("", true));
    SourceConnects(cfg, m, h, d, session);
    SummaryIsAsked(cfg, m, h, Step(cfg, d, MoveOn(ConnectSource(session))), session, rendered);
  }

  lemma {:induction false} PiecesArePrivate(cfg: Config, m: Machine, h: Handoff, t: Machine, session: string, prompt: string,
                                            wish: Option<string>, pieces: seq<Piece>)
    requires Asked(cfg, m, h, t, session, prompt, wish)
    ensures Steps(cfg, t, Heard(pieces)) == t
    decreases |pieces|
  {
    if pieces != [] {
      var p := pieces[0];
      SummaryIsPrivate(cfg, m, h, t, session, prompt, wish, p);
      PiecesArePrivate(cfg, m, h, t, session, prompt, wish, pieces[1..]);
      assert Heard(pieces)[0] == TextEvent(p.name, p.text, p.replace) && Heard(pieces)[1..] == Heard(pieces[1..]);
      hide Step;
    }
  }

  function Wish(wish: Option<string>): seq<Event> {
    if wish.Some? then [SwitchHarness(wish.value)] else []
  }

  /** A queued handoff of a Thread with messages that is left alone: the old harness is asked once for a summary, in the
      frozen words if there are any, and nothing it says then is in the transcript; the newest target takes over with
      the summary as continuation; the queue and the transcript are as they were; and a switch that came meanwhile
      is the next handoff, unless it leads to where the Thread has arrived. */
  lemma LeftAloneHandoffsArrive(cfg: Config, m: Machine, h: Handoff, source: string, rendered: string, pieces: seq<Piece>,
                                wish: Option<string>, text: string, target: string)
    requires Queues(cfg, m, h) && m.mem.messages != [] && Trim(text) != "" && (wish.Some? ==> CanSwitch(cfg, wish.value))
    ensures var t := Steps(cfg, m, AskFor(source, rendered) + Heard(pieces) + Wish(wish) + [MoveOn(TakeSummary(text))] + GoOver(target));
      && Arrives(m, h, t, Trim(text), target, wish)
      && t.sent == m.sent + [Dispatch(h.operation, h.prompt.GetOr(rendered), HarnessId(cfg, m.mem))]
  {
    var prompt := h.prompt.GetOr(rendered);
    AsksFor(cfg, m, h, source, rendered);
    var a := Steps(cfg, m, AskFor(source, rendered));
    PiecesArePrivate(cfg, m, h, a, source, prompt, None, pieces);
    StepsMore(cfg, m, AskFor(source, rendered), Heard(pieces));
    StepsMore(cfg, m, AskFor(source, rendered) + Heard(pieces), Wish(wish));
    var w := Steps(cfg, a, Wish(wish));
    WishIsTaken(cfg, m, h, a, source, prompt, wish);
    var before := AskFor(source, rendered) + Heard(pieces) + Wish(wish);
    StepsTo(cfg, m, before, MoveOn(TakeSummary(text)));
    SummaryIsTaken(cfg, m, h, w, source, prompt, wish, text);
    StepsMore(cfg, m, before + [MoveOn(TakeSummary(text))], GoOver(target));
    assert w.sent == m.sent + [Dispatch(h.operation, prompt, HarnessId(cfg, m.mem))];
    hide Step, Asked, Moving, Arrives, Queues, AskFor, GoOver, Heard, Wish;
    GoesOver(cfg, m, h, Step(cfg, w, MoveOn(TakeSummary(text))), Trim(text), target, wish);
  }

  lemma WishIsTaken(cfg: Config, m: Machine, h: Handoff, t: Machine, session: string, prompt: string, wish: Option<string>)
    requires Asked(cfg, m, h, t, session, prompt, None) && (wish.Some? ==> CanSwitch(cfg, wish.value))
    ensures Asked(cfg, m, h, Steps(cfg, t, Wish(wish)), session, prompt, wish)
  {
    if wish.Some? {
      WishIsNoted(cfg, m, h, t, session, prompt, None, wish.value);
      assert [SwitchHarness(wish.value)][1..] == [];
      hide Step, Asked;
      assert Steps(cfg, Step(cfg, t, SwitchHarness(wish.value)), []) == Step(cfg, t, SwitchHarness(wish.value));
    }
  }

  /** A Thread without messages is handed over without a summary. */
  lemma EmptyThreadsGoOver(cfg: Config, m: Machine, h: Handoff, target: string)
    requires Queues(cfg, m, h) && m.mem.messages == []
    ensures var t := Steps(cfg, m, [Drain("", true)] + GoOver(target)); Arrives(m, h, t, "", target, None) && t.sent == m.sent
  {
    MoveBegins(cfg, m, h);
    hide Step, Moving, Arrives, Queues;
    assert ([Drain("", true)] + GoOver(target))[0] == Drain("", true) && ([Drain("", true)] + GoOver(target))[1..] == GoOver(target);
    GoesOver(cfg, m, h, Step(cfg, m, Drain("", true)), "", target, None);
  }

  /** A handoff whose summary was saved before a crash goes on from there: it asks for none again. */
  lemma SavedSummariesGoOver(cfg: Config, m: Machine, h: Handoff, text: string, target: string)
    requires Resting(m) && m.mem.handoff == Some(h) && h.stage == HandoffPrepared(text) && h.requested.None?
    ensures var t := Steps(cfg, m, [Drain("", true)] + GoOver(target));
      && t.mem.harness == Some(Harness(h.target, Some(target))) && t.mem.continuation == (if text == "" then None else Some(text))
      && t.mem.handoff.None? && Resting(t) && t.sent == m.sent && t.mem.submissions == m.mem.submissions && t.mem.messages == m.mem.messages
  {
    var d := Step(cfg, m, Drain("", true));
    var from_ := m.(mem := m.mem.(harness := h.source));
    assert Moving(from_, h, d, HasText(text), None) && d.sent == m.sent by { hide SettleReceipt; }
    hide Step, Moving;
    assert ([Drain("", true)] + GoOver(target))[0] == Drain("", true) && ([Drain("", true)] + GoOver(target))[1..] == GoOver(target);
    GoesOver(cfg, from_, h, d, text, target, None);
  }

  /** After a handoff the first queued submission goes to the new harness, behind the old one's summary. */
  lemma TheNextTurnContinues(cfg: Config, m: Machine, h: Handoff, t: Machine, text: string, target: string, n: nat,
                             rendered: string, session: string, pieces: seq<Piece>, outcome: Outcome)
    requires Arrives(m, h, t, text, target, None) && text != "" && Sane(t) && IsNext(m, n) && m.mem.submissions[n].harnessPrompt.None?
    ensures var u := Steps(cfg, t, OneTurn(rendered, session, pieces, outcome));
      var q := m.mem.submissions[n];
      && u.sent == t.sent + [Dispatch(q.attempt.GetOr(q.id),
           "Continuation context from the previous harness:\n" + text + "\n\nCurrent request:\n" + rendered, Goal(h))]
      && u.mem.continuation.None?
  {
    LeftAloneTurnsEnd(cfg, t, n, rendered, session, pieces, outcome);
    hide Steps, Sane, OneTurn, Transcribed;
  }

  /** A handoff that fails at any stage before the target is in charge goes back to its harness and stops there. */
  lemma FailedHandoffsGoBack(cfg: Config, m: Machine)
    requires m.move.Some? && !m.move.value.stage.Failing? && !m.move.value.stage.Retiring?
    ensures var t := Step(cfg, Step(cfg, Step(cfg, m, MoveOn(FailMove)), Retired), MoveOn(Restore));
      && t.mem.harness == m.move.value.original && t.mem.handoff.None? && t.mem.phase == PhaseFailed && t.move.None?
      && t.active.None? && !t.retiring && t.disk == t.mem && t.mem.submissions == m.mem.submissions && t.mem.messages == m.mem.messages
  {
    hide SettleReceipt;
  }
}
