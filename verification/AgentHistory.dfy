/**
 * What the user can rely on in the transcript and when cancelling: a finished message never changes and none
 * is ever lost, over any run and any crashes; a turn cancelled while it connects is never sent; and a
 * cancelled submission is reported as cancelled.
 */
module AgentHistory {
  import opened Common
  import opened Text
  import opened AgentTurn
  import opened Transcript
  import opened Receipts
  import opened AgentQueue
  import opened AgentAcceptance
  import opened AgentMachine
  import opened AgentSafety
  import AgentTheorems

  // ---- messages are for ever ----

  /** Messages stay in place with their identity, owner and role; a complete one stays as it is. */
  ghost predicate Later(a: seq<Message<MessageId>>, b: seq<Message<MessageId>>) {
    && |a| <= |b|
    && forall i :: 0 <= i < |a| ==>
      && b[i].id == a[i].id && b[i].owner == a[i].owner && b[i].user == a[i].user
      && (a[i].complete ==> b[i] == a[i])
  }

  lemma LaterTwice(a: seq<Message<MessageId>>, b: seq<Message<MessageId>>, c: seq<Message<MessageId>>)
    requires Later(a, b) && Later(b, c)
    ensures Later(a, c)
  {
  }

  lemma InputIsLater(ms: seq<Message<MessageId>>, id: MessageId, owner: Id, prompt: string)
    ensures Later(ms, AppendInput(ms, id, owner, prompt))
  {
  }

  lemma UpdateIsLater(ms: seq<Message<MessageId>>, u: Update<MessageId>)
    ensures Later(ms, ApplyUpdate(ms, u))
  {
    hide Written, Used;
    var o := Opened(ms, u);
    assert forall i :: 0 <= i < |ms| ==> o[i] == o[..|ms|][i] == ms[i];
  }

  lemma FinalizeIsLater(ms: seq<Message<MessageId>>, owner: Id, counts: MessageId -> bool)
    ensures Later(ms, FinalizeOwner(ms, owner, counts))
  {
  }

  lemma EnqueueIsLater(s: AgentState, input: QueueInput, id: Id)
    ensures Enqueue(s, input, id).Ok? ==> Later(s.messages, Enqueue(s, input, id).value.messages)
  {
    InputIsLater(s.messages, OfInput(id), id, input.prompt);
  }

  lemma EnqueueCommentIsLater(s: AgentState, review: Review, comment: Id, frozen: Option<PromptRequest>, id: Id)
    ensures var r := EnqueueComment(s, review, comment, frozen, id); r.Ok? ==> Later(s.messages, r.value.messages)
  {
    hide Later, Enqueue, HasComment;
    var input := CommentInput(s, review, comment, frozen);
    if input.Some? { EnqueueIsLater(s, input.value, id); }
  }

  lemma {:induction false} EnqueueCommentsIsLater(s: AgentState, review: Review, comments: seq<Id>, next: nat)
    ensures var r := EnqueueComments(s, review, comments, next); r.Ok? ==> Later(s.messages, r.value.messages)
    decreases |comments|
  {
    if comments != [] {
      hide Later, EnqueueComment;
      EnqueueCommentIsLater(s, review, comments[0], None, Uuid(next));
      match EnqueueComment(s, review, comments[0], None, Uuid(next))
      case Err(_) =>
      case Ok(t) =>
        EnqueueCommentsIsLater(t, review, comments[1..], next + 1);
        var r := EnqueueComments(t, review, comments[1..], next + 1);
        if r.Ok? { LaterTwice(s.messages, t.messages, r.value.messages); }
    }
  }

  lemma EnqueueBatchIsLater(s: AgentState, p: PromptRequest, review: Review, next: nat)
    ensures var r := EnqueueBatch(s, p, review, next); r.Ok? ==> Later(s.messages, r.value.messages)
  {
    hide Later, EnqueueComments, Enqueue, Trim;
    var notes := BatchAnnotations(s, p, review);
    EnqueueCommentsIsLater(s, review, notes, next);
    match EnqueueComments(s, review, notes, next)
    case Err(_) =>
    case Ok(t) =>
      var own := OwnComments(t, p);
      EnqueueCommentsIsLater(t, review, own, next + |notes|);
      match EnqueueComments(t, review, own, next + |notes|) {
        case Err(_) =>
        case Ok(u) =>
          LaterTwice(s.messages, t.messages, u.messages);
          var n := next + |notes| + |own|;
          PlainIsLater(u, p, n);
          var r := EnqueuePlain(u, p, n);
          if r.Ok? { LaterTwice(s.messages, u.messages, r.value.messages); }
      }
  }

  lemma PlainIsLater(u: AgentState, p: PromptRequest, n: nat)
    ensures var r := EnqueuePlain(u, p, n); r.Ok? ==> Later(u.messages, r.value.messages)
  {
    EnqueueIsLater(u, QueueInput(Trim(p.text), p.context.GetOr(""), None, None), InputId(p, n));
  }

  lemma AcceptIsLater(s: AgentState, p: PromptRequest, review: Review, next: nat, fallback: string)
    ensures var r := Accept(s, p, review, next, fallback); r.Ok? ==> Later(s.messages, r.value.messages)
  {
    hide EnqueueComment, EnqueueBatch;
    var b := Bound(s, fallback);
    if p.comment.Some? {
      EnqueueCommentIsLater(b, review, p.comment.value, if p.discussion.Some? then Some(p) else None, InputId(p, next));
    } else {
      EnqueueBatchIsLater(b, p, review, next);
    }
  }

  /** Every step that touches the transcript saves it. */
  ghost predicate Saved(m: Machine) {
    m.mem.messages == m.disk.messages
  }

  ghost predicate Goes(m: Machine, t: Machine) {
    Saved(t) && Later(m.mem.messages, t.mem.messages)
  }

  lemma PromptGoes(cfg: Config, m: Machine, p: PromptRequest, review: Review, saved: bool)
    requires Saved(m)
    ensures Goes(m, Prompted(cfg, m, p, review, saved).0)
  {
    hide Accept, FindReceipt;
    AcceptIsLater(m.mem, p, review, m.next, cfg.fallback);
  }

  lemma ReceivingGoes(m: Machine, name: Option<string>, text: string, replace: bool)
    requires Saved(m)
    ensures Goes(m, Receiving(m, name, text, replace))
  {
    hide ApplyUpdate;
    if m.active.Some? { UpdateIsLater(m.mem.messages, TextUpdate(m.active.value, name, text, replace)); }
  }

  lemma FinishedGoes(m: Machine, outcome: Outcome)
    requires Saved(m)
    ensures Goes(m, RunFinished(m, outcome))
  {
    hide FinalizeOwner;
    if m.run.Some? { FinalizeIsLater(m.mem.messages, m.run.value.id, Counter(m.run.value.attempt)); }
  }

  lemma OthersGo(cfg: Config, m: Machine, e: Event)
    requires Saved(m) && !e.AcceptPrompt? && !e.TextEvent? && !e.Finish?
    ensures Goes(m, Step(cfg, m, e))
  {
    SameMessages(cfg, m, e);
  }

  lemma SameMessages(cfg: Config, m: Machine, e: Event)
    requires Saved(m) && !e.AcceptPrompt? && !e.TextEvent? && !e.Finish?
    ensures Step(cfg, m, e).mem.messages == m.mem.messages == Step(cfg, m, e).disk.messages
  {
    hide HasComment, StartText, Trim;
    match e
    case MoveOn(step) => MovesKeepMessages(cfg, m, step);
    case _ =>
  }

  lemma MovesKeepMessages(cfg: Config, m: Machine, step: MoveStep)
    requires Saved(m)
    ensures Moved(cfg, m, step).mem.messages == m.mem.messages == Moved(cfg, m, step).disk.messages
  {
    hide Trim;
  }

  lemma StepGoes(cfg: Config, m: Machine, e: Event)
    requires Saved(m)
    ensures Goes(m, Step(cfg, m, e))
  {
    hide Goes, Saved, Prompted, Receiving, RunFinished;
    match e
    case AcceptPrompt(p, review, saved) => PromptGoes(cfg, m, p, review, saved);
    case TextEvent(name, text, replace) => ReceivingGoes(m, name, text, replace);
    case Finish(outcome) => FinishedGoes(m, outcome);
    case _ => OthersGo(cfg, m, e);
  }

  /** Over any run, crashes included: no message is lost or moved, what the user said never changes, and an
      answer that was finished never changes again; and the file always has the whole transcript. */
  lemma {:induction false} MessagesAreForEver(cfg: Config, m: Machine, es: seq<Event>)
    requires Saved(m)
    ensures Saved(Steps(cfg, m, es)) && Later(m.mem.messages, Steps(cfg, m, es).mem.messages)
    decreases es
  {
    if es != [] {
      StepGoes(cfg, m, es[0]);
      hide Step, Later, Saved;
      var t := Step(cfg, m, es[0]);
      MessagesAreForEver(cfg, t, es[1..]);
      LaterTwice(m.mem.messages, t.mem.messages, Steps(cfg, t, es[1..]).mem.messages);
    } else {
      assert Later(m.mem.messages, m.mem.messages);
    }
  }

  // ---- cancelled while connecting ----

  /** The run is waiting for its connection, and its turn has been cancelled. */
  predicate CancelledStart(m: Machine) {
    m.run.Some? && m.run.value.stage == RunConnecting && m.active.Some? && m.active.value.turn == Starting(true)
  }

  /** Cancelling a turn that is still connecting. */
  lemma CancelMarksTheStart(m: Machine)
    requires m.run.Some? && m.run.value.stage == RunConnecting && m.active.Some? && m.active.value.turn.Starting? && Busy(m.mem)
    ensures CancelledStart(Cancelling(m)) && Cancelling(m).sent == m.sent
  {
  }

  lemma CancelledStartStep(cfg: Config, m: Machine, e: Event)
    requires Sane(m) && CancelledStart(m) && e != Crash
    ensures Step(cfg, m, e).sent == m.sent
    ensures CancelledStart(Step(cfg, m, e)) || Step(cfg, m, e).run.None?
  {
    hide Accept, FindReceipt, Settle, Sane, HasComment;
    assert Busy(m.mem) && m.move.None? by { RunMeansBusy(m); }
    match e
    case Connected(session) => CancelledConnect(cfg, m, session);
    case _ =>
  }

  lemma RunMeansBusy(m: Machine)
    requires Sane(m) && m.run.Some?
    ensures Busy(m.mem) && m.move.None?
  {
  }

  /** The connection arrives: the run ends without a request. */
  lemma CancelledConnect(cfg: Config, m: Machine, session: string)
    requires CancelledStart(m)
    ensures var t := RunConnected(cfg, m, session); t.sent == m.sent && t.run.None? && t.mem.phase == PhaseIdle
  {
  }

  /** Whatever happens, a turn cancelled while it connects is never sent to the harness: the run ends first. */
  lemma {:induction false} CancelledStartIsNeverSent(cfg: Config, m: Machine, es: seq<Event>)
    requires Sane(m) && CancelledStart(m) && Crash !in es
    requires forall j :: 0 <= j < |es| ==> Steps(cfg, m, es[..j]).run.Some?
    ensures Steps(cfg, m, es).sent == m.sent
    decreases es
  {
    if es != [] {
      var t := Step(cfg, m, es[0]);
      StepIsSane(cfg, m, es[0]);
      CancelledStartStep(cfg, m, es[0]);
      hide Step, Sane;
      if |es| > 1 {
        assert es[..1][0] == es[0] && es[..1][1..] == [];
        assert Steps(cfg, m, es[..1]) == Steps(cfg, t, []);
        forall j | 0 <= j < |es[1..]| ensures Steps(cfg, t, es[1..][..j]).run.Some? {
          assert es[..j + 1][0] == es[0] && es[..j + 1][1..] == es[1..][..j];
          assert Steps(cfg, m, es[..j + 1]).run.Some?;
        }
        CancelledStartIsNeverSent(cfg, t, es[1..]);
      } else {
        assert es[1..] == [];
        assert Steps(cfg, m, es) == Steps(cfg, t, []);
      }
    }
  }

  /** So cancelling while the harness connects is enough: whatever comes next, as long as that run lasts and
      through the step that ends it, nothing is sent. */
  lemma CancelledWhileConnecting(cfg: Config, m: Machine, es: seq<Event>)
    requires Sane(m) && m.run.Some? && m.run.value.stage == RunConnecting && m.active.Some? && m.active.value.turn.Starting?
    requires Crash !in es
    requires var c := Step(cfg, m, Cancel); forall j :: 0 <= j < |es| ==> Steps(cfg, c, es[..j]).run.Some?
    ensures Steps(cfg, Step(cfg, m, Cancel), es).sent == m.sent
  {
    RunMeansBusy(m);
    CancelMarksTheStart(m);
    StepIsSane(cfg, m, Cancel);
    StepIsCancel(cfg, m);
    hide Sane, Step, Steps, Cancelling;
    CancelledStartIsNeverSent(cfg, Cancelling(m), es);
  }

  lemma StepIsCancel(cfg: Config, m: Machine)
    ensures Step(cfg, m, Cancel) == Cancelling(m)
  {
  }

  // ---- a cancelled submission is reported as cancelled ----

  /** The queue after the run's submission was marked cancelled, and after its turn ended too. */
  function Marked(m: Machine, n: nat): seq<Submission>
    requires n < |m.mem.submissions|
  {
    m.mem.submissions[n := m.mem.submissions[n].(cancelled := true)]
  }

  function Ended(m: Machine, n: nat, outcome: Outcome): seq<Submission>
    requires n < |m.mem.submissions|
  {
    Marked(m, n)[n := Finisher(outcome)(Marked(m, n)[n])]
  }

  /** The run's submission has ended, cancelled; the receipt is decided unless another member is not. */
  ghost predicate ReportedCancelled(id: Id, r: Receipt, s: AgentState, i: nat) {
    var n := IndexOfSubmission(s.submissions, id);
    && n < |s.submissions| && s.submissions[n].cancelled && s.submissions[n].status in {Completed, Failed}
    && i < |s.receipts| && s.receipts[i].batch == r.batch
    && s.receipts[i].outcome == if Pending(s.submissions, r.batch) then None else Some(OutcomeCancelled)
  }

  /** However the harness ends a cancelled turn, its submission ends cancelled, and every undecided receipt that
      this decides and that names it says cancelled. */
  lemma CancelReachesTheReceipt(m: Machine, outcome: Outcome, i: nat)
    requires Sane(m) && AgentTheorems.OneRunning(m) && m.run.Some? && m.run.value.stage == RunPrompting && m.active.Some?
    requires i < |m.mem.receipts| && m.mem.receipts[i].outcome.None? && m.run.value.id in m.mem.receipts[i].batch
    ensures ReportedCancelled(m.run.value.id, m.mem.receipts[i], RunFinished(Cancelling(m), outcome).mem, i)
  {
    var n := IndexOfSubmission(m.mem.submissions, m.run.value.id);
    CancelledEnds(m, outcome);
    hide Sane, AgentTheorems.OneRunning, RunFinished, Cancelling, SettleReceipt, Pending, Finisher;
    EndedIsCancelled(m, n, outcome);
    SameIndex(m.mem.submissions, Marked(m, n), m.run.value.id);
    StillUndecided(m, Marked(m, n), i);
    SettledAsCancelled(Ended(m, n, outcome), m.mem.receipts[i], m.run.value.id, n);
  }

  lemma EndedIsCancelled(m: Machine, n: nat, outcome: Outcome)
    requires n < |m.mem.submissions| && m.mem.submissions[n].status == Running
    requires n == IndexOfSubmission(m.mem.submissions, m.mem.submissions[n].id)
    ensures var e := Ended(m, n, outcome);
      && e[n].cancelled && e[n].status in {Completed, Failed} && e[n].id == m.mem.submissions[n].id
      && IndexOfSubmission(e, e[n].id) == n
  {
    SameIndex(m.mem.submissions, Ended(m, n, outcome), m.mem.submissions[n].id);
  }

  /** The submissions and receipts of a turn that was cancelled and then ended. */
  lemma CancelledEnds(m: Machine, outcome: Outcome)
    requires Sane(m) && AgentTheorems.OneRunning(m) && m.run.Some? && m.run.value.stage == RunPrompting && m.active.Some?
    ensures var n := IndexOfSubmission(m.mem.submissions, m.run.value.id);
      && n < |m.mem.submissions| && m.mem.submissions[n].status == Running && m.mem.submissions[n].id == m.run.value.id
      && var t := RunFinished(Cancelling(m), outcome);
      && t.mem.submissions == Ended(m, n, outcome)
      && t.mem.receipts == SettleAll(Ended(m, n, outcome), SettleAll(Marked(m, n), m.mem.receipts))
  {
    AgentTheorems.RunIsRunning(m);
    RunMeansBusy(m);
    AgentTheorems.RunEndsAlone(m);
    var n := IndexOfSubmission(m.mem.submissions, m.run.value.id);
    OnlyOneRuns(m, n);
    hide Sane, AgentTheorems.OneRunning, SettleAll;
    assert Cancelling(m).mem.submissions == Marked(m, n);
    SameIndex(m.mem.submissions, Marked(m, n), m.run.value.id);
  }

  lemma OnlyOneRuns(m: Machine, n: nat)
    requires n < |m.mem.submissions| && m.mem.submissions[n].status == Running
    requires forall i :: 0 <= i < |m.mem.submissions| && i != n ==> m.mem.submissions[i].status != Running
    ensures FirstRunning(m.mem.submissions) == n
  {
  }

  /** While the submission runs, its receipt stays undecided. */
  lemma StillUndecided(m: Machine, marked: seq<Submission>, i: nat)
    requires i < |m.mem.receipts| && m.run.Some? && m.run.value.id in m.mem.receipts[i].batch
    requires var n := IndexOfSubmission(marked, m.run.value.id); n < |marked| && marked[n].status == Running
    ensures SettleAll(marked, m.mem.receipts)[i] == m.mem.receipts[i]
  {
    assert Unsettled(marked, m.run.value.id);
  }

  lemma SettledAsCancelled(subs: seq<Submission>, r: Receipt, id: Id, n: nat)
    requires r.outcome.None? && id in r.batch && n < |subs| && subs[n].id == id && subs[n].cancelled
    requires forall k :: 0 <= k < n ==> subs[k].id != id
    ensures SettleReceipt(subs, r).outcome == if Pending(subs, r.batch) then None else Some(OutcomeCancelled)
  {
    assert IndexOfSubmission(subs, id) == n;
    var cancelled := (q: Submission) => q.cancelled;
    assert HasMember(subs, r.batch, cancelled);
  }
}
