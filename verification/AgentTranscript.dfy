/**
 * The byte bounds of the transcript, kept by the whole machine: prompts, comments, streamed text, finished
 * turns, crashes.
 */
module AgentTranscript {
  import opened Common
  import opened Text
  import opened AgentTurn
  import opened Transcript
  import opened Receipts
  import opened AgentQueue
  import opened AgentMachine

  lemma EnqueueIsBounded(s: AgentState, input: QueueInput, id: Id)
    requires Bounded(s.messages)
    ensures Enqueue(s, input, id).Ok? ==> Bounded(Enqueue(s, input, id).value.messages)
  {
    hide Bounded;
    ApplyKeepsBounded(s.messages, Input(OfInput(id), id, input.prompt, input.quote));
  }

  lemma EnqueueCommentIsBounded(s: AgentState, review: Review, comment: Id, frozen: Option<PromptRequest>, id: Id)
    requires Bounded(s.messages)
    ensures var r := EnqueueComment(s, review, comment, frozen, id); r.Ok? ==> Bounded(r.value.messages)
  {
    hide Bounded, Enqueue, HasComment;
    var input := CommentInput(s, review, comment, frozen);
    if input.Some? { EnqueueIsBounded(s, input.value, id); }
  }

  lemma {:induction false} EnqueueCommentsIsBounded(s: AgentState, review: Review, comments: seq<Id>, next: nat)
    requires Bounded(s.messages)
    ensures var r := EnqueueComments(s, review, comments, next); r.Ok? ==> Bounded(r.value.messages)
    decreases |comments|
  {
    hide Bounded, EnqueueComment;
    if comments != [] {
      EnqueueCommentIsBounded(s, review, comments[0], None, Uuid(next));
      match EnqueueComment(s, review, comments[0], None, Uuid(next))
      case Err(_) =>
      case Ok(t) => EnqueueCommentsIsBounded(t, review, comments[1..], next + 1);
    }
  }

  lemma EnqueueBatchIsBounded(s: AgentState, p: PromptRequest, review: Review, next: nat)
    requires Bounded(s.messages)
    ensures var r := EnqueueBatch(s, p, review, next); r.Ok? ==> Bounded(r.value.messages)
  {
    hide Bounded, EnqueueComments, Enqueue, Trim;
    var notes := BatchAnnotations(s, p, review);
    EnqueueCommentsIsBounded(s, review, notes, next);
    match EnqueueComments(s, review, notes, next)
    case Err(_) =>
    case Ok(t) =>
      var own := OwnComments(t, p);
      EnqueueCommentsIsBounded(t, review, own, next + |notes|);
      match EnqueueComments(t, review, own, next + |notes|) {
        case Err(_) =>
        case Ok(u) =>
          var n := next + |notes| + |own|;
          EnqueueIsBounded(u, QueueInput(Trim(p.text), p.context.GetOr(""), None, None), InputId(p, n));
      }
  }

  lemma AcceptIsBounded(s: AgentState, p: PromptRequest, review: Review, next: nat, fallback: string)
    requires Bounded(s.messages)
    ensures var r := Accept(s, p, review, next, fallback); r.Ok? ==> Bounded(r.value.messages)
  {
    hide Bounded, EnqueueComment, EnqueueBatch;
    var b := Bound(s, fallback);
    if p.comment.Some? {
      EnqueueCommentIsBounded(b, review, p.comment.value, if p.discussion.Some? then Some(p) else None, InputId(p, next));
    } else {
      EnqueueBatchIsBounded(b, p, review, next);
    }
  }

  ghost predicate TranscriptOk(m: Machine) {
    Bounded(m.mem.messages) && Bounded(m.disk.messages)
  }

  lemma PromptedIsBounded(cfg: Config, m: Machine, p: PromptRequest, review: Review, saved: bool)
    requires TranscriptOk(m)
    ensures TranscriptOk(Prompted(cfg, m, p, review, saved).0)
  {
    hide Bounded, Accept, FindReceipt;
    AcceptIsBounded(m.mem, p, review, m.next, cfg.fallback);
  }

  lemma ReceivingIsBounded(m: Machine, name: Option<string>, text: string, replace: bool)
    requires TranscriptOk(m)
    ensures TranscriptOk(Receiving(m, name, text, replace))
  {
    hide Bounded;
    if m.active.Some? { ApplyKeepsBounded(m.mem.messages, Output(TextUpdate(m.active.value, name, text, replace))); }
  }

  lemma FinishedIsBounded(m: Machine, outcome: Outcome)
    requires TranscriptOk(m)
    ensures TranscriptOk(RunFinished(m, outcome))
  {
    hide Bounded, FinalizeOwner;
    if m.run.Some? { ApplyKeepsBounded(m.mem.messages, Finalize(m.run.value.id, Counter(m.run.value.attempt))); }
  }

  /** Steps that leave the transcript alone. */
  lemma OthersAreBounded(cfg: Config, m: Machine, e: Event)
    requires TranscriptOk(m)
    requires !e.AcceptPrompt? && !e.TextEvent? && !e.Finish?
    ensures TranscriptOk(Step(cfg, m, e))
  {
    hide Bounded, HasComment, Settle, StartText, Trim;
    assert forall s: AgentState :: Settle(s).messages == s.messages by { SettleKeepsMessages(); }
    match e
    case MoveOn(step) => MoveIsBounded(cfg, m, step);
    case Crash => CrashIsBounded(cfg, m);
    case _ =>
  }

  lemma SettleKeepsMessages()
    ensures forall s: AgentState :: Settle(s).messages == s.messages
  {
  }

  lemma CrashIsBounded(cfg: Config, m: Machine)
    requires TranscriptOk(m)
    ensures TranscriptOk(CrashAndReload(cfg, m))
  {
    hide Bounded;
  }

  lemma MoveIsBounded(cfg: Config, m: Machine, step: MoveStep)
    requires TranscriptOk(m)
    ensures TranscriptOk(Moved(cfg, m, step))
  {
    hide Bounded, Trim, Settle;
    SettleKeepsMessages();
  }

  lemma StepIsBounded(cfg: Config, m: Machine, e: Event)
    requires TranscriptOk(m)
    ensures TranscriptOk(Step(cfg, m, e))
  {
    hide TranscriptOk, Prompted, Receiving, RunFinished;
    match e
    case AcceptPrompt(p, review, saved) => PromptedIsBounded(cfg, m, p, review, saved);
    case TextEvent(name, text, replace) => ReceivingIsBounded(m, name, text, replace);
    case Finish(outcome) => FinishedIsBounded(m, outcome);
    case _ => OthersAreBounded(cfg, m, e);
  }

  /** Over any run of a Thread agent, in memory and on disk, no message passes 320,002 bytes and no transcript
      2 MiB + 2. */
  lemma {:induction false} RunsStayBounded(cfg: Config, m: Machine, es: seq<Event>)
    requires TranscriptOk(m)
    ensures TranscriptOk(Steps(cfg, m, es))
    decreases es
  {
    if es != [] {
      hide TranscriptOk, Step;
      StepIsBounded(cfg, m, es[0]);
      RunsStayBounded(cfg, Step(cfg, m, es[0]), es[1..]);
    }
  }

  /** A new Thread's transcript is empty. */
  lemma StartIsBounded()
    ensures TranscriptOk(START)
  {
  }
}
