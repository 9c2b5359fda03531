/**
 * What a receipt names and when it is decided: an outcome is only ever given to a batch all of whose members
 * are in the queue, so a receipt that names a submission nobody has queued stays undecided.
 */
module AgentReceipts {
  import opened Common
  import opened AgentTurn
  import opened Receipts
  import opened AgentQueue
  import opened AgentAcceptance
  import opened AgentMachine
  import opened AgentSafety
  import AgentLedger

  // ---- what a new receipt names ----

  /** A request that carries a comment and a retry enqueues the comment but records the retry, so its receipt
      names what it added exactly when it carries no retry, or one that names its own input. */
  lemma ReceiptNamesTheBatchExactly(s: AgentState, p: PromptRequest, review: Review, next: nat, fallback: string)
    returns (added: seq<Submission>)
    requires !IsRetry(p) && p.operation.Some? && Accept(s, p, review, next, fallback).Ok?
    requires FindReceipt(s.receipts, p) == Ok(None) && IdsKnown(s.submissions, s.receipts, next)
    ensures var t := Accept(s, p, review, next, fallback).value;
      && t.submissions == s.submissions + added
      && |t.receipts| == |s.receipts| + 1
      && (t.receipts[|s.receipts|].batch == IdsOf(added) <==> p.retry.None? || p.retry.value == InputId(p, next))
      && (p.retry.Some? ==> t.receipts[|s.receipts|].batch == [p.retry.value])
  {
    added := AcceptShape(s, p, review, next, fallback);
    if p.retry.Some? {
      OneCommentAdded(s, p, review, next, fallback, added);
    }
  }

  lemma OneCommentAdded(s: AgentState, p: PromptRequest, review: Review, next: nat, fallback: string, added: seq<Submission>)
    requires p.comment.Some? && Accept(s, p, review, next, fallback).Ok?
    requires Accept(s, p, review, next, fallback).value.submissions == s.submissions + added
    ensures IdsOf(added) == [InputId(p, next)]
  {
    hide EnqueueComment;
    var b := Bound(s, fallback);
    var q := EnqueueCommentGrows(b, review, p.comment.value, if p.discussion.Some? then Some(p) else None, InputId(p, next));
    assert Accept(s, p, review, next, fallback).value.submissions == s.submissions + [q];
    assert added == [q] by { assert (s.submissions + added)[|s.submissions|..] == added && (s.submissions + [q])[|s.submissions|..] == [q]; }
  }

  // ---- only what is there is decided ----

  predicate AllPresent(subs: seq<Submission>, batch: seq<Id>) {
    forall id :: id in batch ==> IndexOfSubmission(subs, id) < |subs|
  }

  ghost predicate Decided(subs: seq<Submission>, receipts: seq<Receipt>) {
    forall i :: 0 <= i < |receipts| && receipts[i].outcome.Some? ==> AllPresent(subs, receipts[i].batch)
  }

  ghost predicate DecidedOk(m: Machine) {
    Decided(m.mem.submissions, m.mem.receipts) && Decided(m.disk.submissions, m.disk.receipts)
  }

  lemma SettleDecides(subs: seq<Submission>, receipts: seq<Receipt>)
    requires Decided(subs, receipts)
    ensures Decided(subs, SettleAll(subs, receipts))
  {
    var out := SettleAll(subs, receipts);
    forall i | 0 <= i < |out| && out[i].outcome.Some? ensures AllPresent(subs, out[i].batch) {
      if receipts[i].outcome.None? {
        forall id | id in receipts[i].batch ensures IndexOfSubmission(subs, id) < |subs| {
          assert !Unsettled(subs, id);
        }
      }
    }
  }

  lemma DecidedLater(a: seq<Submission>, b: seq<Submission>, receipts: seq<Receipt>)
    requires Decided(a, receipts) && AgentLedger.InputsKept(a, b)
    ensures Decided(b, receipts)
  {
    forall i, id | 0 <= i < |receipts| && receipts[i].outcome.Some? && id in receipts[i].batch
      ensures IndexOfSubmission(b, id) < |b|
    {
      var n := IndexOfSubmission(a, id);
      assert AllPresent(a, receipts[i].batch);
      assert b[n].id == AgentLedger.InputPart(b[n]).id == AgentLedger.InputPart(a[n]).id == id;
    }
  }

  /** A step leaves the receipts alone or settles them by the queue, once or twice, and saves all or nothing. */
  predicate Settles(m: Machine, t: Machine) {
    && (t.disk == m.disk || t.disk == t.mem)
    && t.mem.receipts in {m.mem.receipts, SettleAll(t.mem.submissions, m.mem.receipts),
                          SettleAll(t.mem.submissions, SettleAll(m.mem.submissions, m.mem.receipts))}
  }

  lemma SettledStep(m: Machine, t: Machine)
    requires DecidedOk(m) && Settles(m, t) && AgentLedger.InputsKept(m.mem.submissions, t.mem.submissions)
    ensures DecidedOk(t)
  {
    hide AgentLedger.InputsKept, Decided, SettleAll;
    var rs := m.mem.receipts;
    DecidedLater(m.mem.submissions, t.mem.submissions, rs);
    SettleDecides(t.mem.submissions, rs);
    SettleDecides(m.mem.submissions, rs);
    DecidedLater(m.mem.submissions, t.mem.submissions, SettleAll(m.mem.submissions, rs));
    SettleDecides(t.mem.submissions, SettleAll(m.mem.submissions, rs));
  }

  lemma RunsSettle(cfg: Config, m: Machine, session: string, outcome: Outcome)
    ensures Settles(m, RunConnected(cfg, m, session)) && Settles(m, RunFinished(m, outcome))
    ensures Settles(m, RunFailed(m)) && Settles(m, Cancelling(m))
  {
    hide SettleAll;
  }

  lemma TextSettles(m: Machine, request: string, name: Option<string>, text: string, replace: bool)
    ensures Settles(m, Receiving(m, name, text, replace)) && Settles(m, Save(m))
    ensures Settles(m, Asking(m, request)) && Settles(m, Answering(m, request))
  {
    hide SettleAll;
  }

  lemma MovesSettle(cfg: Config, m: Machine, step: MoveStep)
    ensures Settles(m, Moved(cfg, m, step))
  {
    hide SettleAll;
  }

  lemma StartsSettle(cfg: Config, m: Machine, rendered: string, saved: bool, target: string, id: Id, body: string, quote: string)
    ensures Settles(m, Drained(cfg, m, rendered, saved)) && Settles(m, Switched(cfg, m, target))
    ensures Settles(m, Commenting(m, id, body, quote)) && Settles(m, m.(retiring := false))
  {
    hide SettleAll;
  }

  lemma OthersSettle(cfg: Config, m: Machine, e: Event)
    requires !e.AcceptPrompt? && !e.Crash?
    ensures Settles(m, Step(cfg, m, e))
  {
    hide Settles, Drained, RunConnected, RunFinished, RunFailed, Cancelling, Switched, Moved, Receiving, Asking,
      Answering, Commenting, Save;
    match e
    case Drain(rendered, saved) => StartsSettle(cfg, m, rendered, saved, "", Uuid(0), "", "");
    case Connected(session) => RunsSettle(cfg, m, session, OutcomeCompleted);
    case Finish(outcome) => RunsSettle(cfg, m, "", outcome);
    case RunFail | Cancel => RunsSettle(cfg, m, "", OutcomeCompleted);
    case Retired => StartsSettle(cfg, m, "", false, "", Uuid(0), "", "");
    case Flush => TextSettles(m, "", None, "", false);
    case AskPermission(request) => TextSettles(m, request, None, "", false);
    case AnswerPermission(request) => TextSettles(m, request, None, "", false);
    case TextEvent(name, text, replace) => TextSettles(m, "", name, text, replace);
    case SaveComment(id, body, quote) => StartsSettle(cfg, m, "", false, "", id, body, quote);
    case SwitchHarness(target) => StartsSettle(cfg, m, "", false, target, Uuid(0), "", "");
    case MoveOn(step) => MovesSettle(cfg, m, step);
  }

  lemma CrashDecides(cfg: Config, m: Machine)
    requires DecidedOk(m)
    ensures DecidedOk(CrashAndReload(cfg, m))
  {
    hide SettleAll, Decided;
    var reset := ResetSubmissions(m.disk.submissions, Recoverable(cfg, m.disk));
    SettleDecides(m.disk.submissions, m.disk.receipts);
    ResetKeepsInputs(m.disk.submissions, Recoverable(cfg, m.disk));
    DecidedLater(m.disk.submissions, reset, m.disk.receipts);
    SettleDecides(reset, m.disk.receipts);
  }

  lemma ResetKeepsInputs(subs: seq<Submission>, recoverable: bool)
    ensures AgentLedger.InputsKept(subs, ResetSubmissions(subs, recoverable))
  {
  }

  lemma NewReceiptDecides(subs: seq<Submission>, before: seq<Receipt>, after: seq<Receipt>, p: PromptRequest, batch: seq<Id>)
    requires Decided(subs, before) && Recorded(before, after, p, batch)
    ensures Decided(subs, after)
  {
  }

  lemma PromptDecides(cfg: Config, m: Machine, p: PromptRequest, review: Review, saved: bool)
    requires Sane(m) && DecidedOk(m)
    requires AgentLedger.InputsKept(m.mem.submissions, Prompted(cfg, m, p, review, saved).0.mem.submissions)
    ensures DecidedOk(Prompted(cfg, m, p, review, saved).0)
  {
    hide Accept, FindReceipt, Decided, AgentLedger.InputsKept, Recorded, SettleAll;
    var t := Prompted(cfg, m, p, review, saved).0;
    if Prompted(cfg, m, p, review, saved).1.Accepted? {
      var s := Accept(m.mem, p, review, m.next, cfg.fallback).value;
      DecidedLater(m.mem.submissions, s.submissions, m.mem.receipts);
      if IsRetry(p) {
        RetryShape(m.mem, p, review, m.next, cfg.fallback);
        NewReceiptDecides(s.submissions, m.mem.receipts, s.receipts, p, [p.retry.value]);
      } else {
        var added := AcceptShape(m.mem, p, review, m.next, cfg.fallback);
        NewReceiptDecides(s.submissions, m.mem.receipts, s.receipts, p, BatchOf(p, added));
      }
      SettleDecides(s.submissions, s.receipts);
    }
  }

  lemma StepDecides(cfg: Config, m: Machine, e: Event)
    requires Sane(m) && AgentLedger.LedgerOk(cfg, m) && DecidedOk(m)
    ensures DecidedOk(Step(cfg, m, e))
  {
    hide Sane, AgentLedger.LedgerOk, DecidedOk, Step, Settles, AgentLedger.InputsKept;
    AgentLedger.StepKeepsLedger(cfg, m, e);
    if e.AcceptPrompt? {
      AgentLedger.StepOfPrompt(cfg, m, e.prompt, e.review, e.saved);
      PromptDecides(cfg, m, e.prompt, e.review, e.saved);
    } else if e.Crash? {
      CrashDecides(cfg, m);
      StepIsCrash(cfg, m);
    } else {
      OthersSettle(cfg, m, e);
      SettledStep(m, Step(cfg, m, e));
    }
  }

  lemma StepIsCrash(cfg: Config, m: Machine)
    ensures Step(cfg, m, Crash) == CrashAndReload(cfg, m)
  {
  }

  /** Over any run, only a batch whose members are all in the queue is ever decided. */
  lemma {:induction false} OnlyPresentIsDecided(cfg: Config, m: Machine, es: seq<Event>)
    requires Sane(m) && AgentLedger.LedgerOk(cfg, m) && DecidedOk(m)
    ensures DecidedOk(Steps(cfg, m, es))
    decreases es
  {
    if es != [] {
      hide Sane, AgentLedger.LedgerOk, DecidedOk, Step;
      StepIsSane(cfg, m, es[0]);
      AgentLedger.StepKeepsLedger(cfg, m, es[0]);
      StepDecides(cfg, m, es[0]);
      OnlyPresentIsDecided(cfg, Step(cfg, m, es[0]), es[1..]);
    }
  }

  /** So the receipt of a comment that came with a retry of something never queued stays undecided: over any
      run, as long as the queue has no submission of that name. */
  lemma StrayRetriesNeverSettle(cfg: Config, m: Machine, p: PromptRequest, review: Review, es: seq<Event>)
    requires Sane(m) && AgentLedger.LedgerOk(cfg, m) && DecidedOk(m)
    requires p.comment.Some? && p.retry.Some? && p.operation.Some? && Prompted(cfg, m, p, review, true).1.Accepted?
    ensures var k := |m.mem.receipts|;
      var t := Steps(cfg, Step(cfg, m, AcceptPrompt(p, review, true)), es);
      && k < |t.mem.receipts| && t.mem.receipts[k].operation == p.operation.value && t.mem.receipts[k].batch == [p.retry.value]
      && (IndexOfSubmission(t.mem.submissions, p.retry.value) == |t.mem.submissions| ==> t.mem.receipts[k].outcome.None?)
  {
    var e := AcceptPrompt(p, review, true);
    var first := Step(cfg, m, e);
    hide Step, Accept;
    AgentLedger.StepOfPrompt(cfg, m, p, review, true);
    AcceptedNamesRetry(cfg, m, p, review);
    StepIsSane(cfg, m, e);
    AgentLedger.StepKeepsLedger(cfg, m, e);
    StepDecides(cfg, m, e);
    AgentLedger.RunsKeepLedger(cfg, first, es);
    OnlyPresentIsDecided(cfg, first, es);
    var t := Steps(cfg, first, es);
    var k := |m.mem.receipts|;
    assert t.mem.receipts[k].batch == first.mem.receipts[k].batch == [p.retry.value];
    if t.mem.receipts[k].outcome.Some? {
      assert AllPresent(t.mem.submissions, t.mem.receipts[k].batch);
      assert p.retry.value in t.mem.receipts[k].batch;
    }
  }

  lemma AcceptedNamesRetry(cfg: Config, m: Machine, p: PromptRequest, review: Review)
    requires Sane(m) && p.comment.Some? && p.retry.Some? && p.operation.Some? && Prompted(cfg, m, p, review, true).1.Accepted?
    ensures var t := Prompted(cfg, m, p, review, true).0;
      && |t.mem.receipts| == |m.mem.receipts| + 1
      && t.mem.receipts[|m.mem.receipts|].operation == p.operation.value
      && t.mem.receipts[|m.mem.receipts|].batch == [p.retry.value]
  {
    hide Accept;
    var added := ReceiptNamesTheBatchExactly(m.mem, p, review, m.next, cfg.fallback);
    var _ := AcceptShape(m.mem, p, review, m.next, cfg.fallback);
    var s := Accept(m.mem, p, review, m.next, cfg.fallback).value;
    SettleExtends(s.submissions, s.receipts);
  }
}
