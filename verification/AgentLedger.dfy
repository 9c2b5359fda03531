/**
 * Acceptance as a ledger: over any run, crashes included, accepted inputs and receipts are only added,
 * a settled outcome never changes, and a redelivered operation changes nothing.
 */
module AgentLedger {
  import opened Common
  import opened AgentTurn
  import opened Transcript
  import opened Receipts
  import opened AgentQueue
  import opened AgentAcceptance
  import opened AgentMachine
  import opened AgentSafety

  /** What acceptance fixed: everything but status, cancellation, attempt and the harness prompt. */
  function InputPart(q: Submission): Submission {
    q.(status := Queued, cancelled := false, harnessPrompt := None, attempt := None)
  }

  ghost predicate InputsKept(a: seq<Submission>, b: seq<Submission>) {
    && |a| <= |b|
    && forall i :: 0 <= i < |a| ==> InputPart(a[i]) == InputPart(b[i])
  }

  ghost predicate DistinctOperations(receipts: seq<Receipt>) {
    forall i, j :: 0 <= i < j < |receipts| ==> receipts[i].operation != receipts[j].operation
  }

  ghost predicate Settled(s: AgentState) {
    SettleAll(s.submissions, s.receipts) == s.receipts
  }

  /** At most 128 receipts under distinct operation IDs; what the disk holds is settled, and reloading it
      shows every outcome memory shows. */
  ghost predicate LedgerOk(cfg: Config, m: Machine) {
    && |m.mem.receipts| <= RECEIPT_LIMIT
    && DistinctOperations(m.mem.receipts)
    && SameBatches(m.mem.receipts, m.disk.receipts)
    && Settled(m.disk)
    && Extends(m.mem.receipts, Reload(cfg, m.disk).receipts)
  }

  lemma SettleTwice(subs: seq<Submission>, receipts: seq<Receipt>)
    ensures SettleAll(subs, SettleAll(subs, receipts)) == SettleAll(subs, receipts)
  {
    forall i | 0 <= i < |receipts|
      ensures SettleAll(subs, SettleAll(subs, receipts))[i] == SettleAll(subs, receipts)[i]
    {
    }
  }

  lemma ReloadExtends(cfg: Config, disk: AgentState)
    ensures Extends(disk.receipts, Reload(cfg, disk).receipts)
    ensures SameBatches(disk.receipts, Reload(cfg, disk).receipts)
  {
    if Interrupted(disk) {
      SettleExtends(ResetSubmissions(disk.submissions, Recoverable(cfg, disk)), disk.receipts);
    } else {
      SettleExtends(disk.submissions, disk.receipts);
    }
  }

  /** A step either leaves disk and receipts alone or ends with a settled save. */
  ghost predicate Kept(m: Machine, t: Machine) {
    || (t.disk == m.disk && t.mem.receipts == m.mem.receipts)
    || (t.disk == t.mem && Settled(t.mem) && Extends(m.mem.receipts, t.mem.receipts) && SameBatches(m.mem.receipts, t.mem.receipts))
  }

  lemma SaveIsKept(m: Machine, u: Machine)
    requires Extends(m.mem.receipts, u.mem.receipts) && SameBatches(m.mem.receipts, u.mem.receipts)
    ensures Kept(m, Save(u))
  {
    SettleTwice(u.mem.submissions, u.mem.receipts);
    SettleExtends(u.mem.submissions, u.mem.receipts);
    ExtendsIsTransitive(m.mem.receipts, u.mem.receipts, Settle(u.mem).receipts);
  }

  lemma KeptIsOk(cfg: Config, m: Machine, t: Machine)
    requires LedgerOk(cfg, m) && Kept(m, t)
    ensures LedgerOk(cfg, t) && Extends(m.mem.receipts, t.mem.receipts)
  {
    if !(t.disk == m.disk && t.mem.receipts == m.mem.receipts) {
      ReloadExtends(cfg, t.disk);
      assert forall i :: 0 <= i < |t.mem.receipts| ==> t.mem.receipts[i].operation == m.mem.receipts[i].operation;
    }
  }

  lemma InputsKeptTwice(a: seq<Submission>, b: seq<Submission>, c: seq<Submission>)
    requires InputsKept(a, b) && InputsKept(b, c)
    ensures InputsKept(a, c)
  {
  }

  lemma FrozenKeepsInputs(a: seq<Submission>, b: seq<Submission>)
    requires SameFrozen(a, b)
    ensures InputsKept(a, b)
  {
    forall i | 0 <= i < |a| ensures InputPart(a[i]) == InputPart(b[i]) {
      assert InputPart(Frozen(a[i])) == InputPart(a[i]) && InputPart(Frozen(b[i])) == InputPart(b[i]);
    }
  }

  // ---- steps ----

  lemma DrainKeeps(cfg: Config, m: Machine, rendered: string, saved: bool)
    ensures Kept(m, Drained(cfg, m, rendered, saved))
    ensures InputsKept(m.mem.submissions, Drained(cfg, m, rendered, saved).mem.submissions)
  {
    var t := Drained(cfg, m, rendered, saved);
    if CanDrain(m) && m.mem.handoff.None? && saved && FirstQueued(m.mem.submissions) < |m.mem.submissions| {
      StartKeeps(m, FirstQueued(m.mem.submissions), rendered);
    } else if CanDrain(m) && m.mem.handoff.Some? {
      MoveStartKeeps(cfg, m);
    }
  }

  lemma StartKeeps(m: Machine, n: nat, rendered: string)
    requires n < |m.mem.submissions|
    ensures Kept(m, StartSubmission(m, n, rendered))
    ensures InputsKept(m.mem.submissions, StartSubmission(m, n, rendered).mem.submissions)
  {
    var q := m.mem.submissions[n];
    var text := StartText(m.mem, q, rendered);
    var u := m.(mem := m.mem.(submissions := m.mem.submissions[n := q.(status := StepSubmission(q.status, Begin, true), harnessPrompt := Some(text))],
                              phase := PhaseRunning, continuation := None),
                run := Some(Run(q.id, q.attempt, text, true, RunConnecting)),
                active := Connect(m.active, q.id));
    SaveIsKept(m, u);
  }

  lemma MoveStartKeeps(cfg: Config, m: Machine)
    requires m.mem.handoff.Some?
    ensures var h := m.mem.handoff.value;
      && Kept(m, Save(m.(mem := m.mem.(handoff := None))))
      && Kept(m, StartMove(m, Coalesced(h))) && StartMove(m, Coalesced(h)).mem.submissions == m.mem.submissions
  {
    var t := StartMove(m, Coalesced(m.mem.handoff.value));
    SettleTwice(m.mem.submissions, m.mem.receipts);
    SettleExtends(m.mem.submissions, m.mem.receipts);
  }

  lemma ConnectedKeeps(cfg: Config, m: Machine, session: string)
    ensures Kept(m, RunConnected(cfg, m, session))
    ensures SameFrozen(m.mem.submissions, RunConnected(cfg, m, session).mem.submissions)
  {
    if m.run.Some? && m.run.value.stage == RunConnecting && m.active.Some? {
      var r := m.run.value;
      var turn := StepTurn(m.active.value.turn, Ready);
      var ready := if m.active.value.turn.Starting? then SetHarness(cfg, m, session) else m;
      SettleTwice(m.mem.submissions, m.mem.receipts);
      SettleExtends(m.mem.submissions, m.mem.receipts);
      var bound := ready.(active := Some(Active(turn, r.id, r.attempt, m.active.value.summary)));
      assert Kept(m, bound);
      if turn.TurnIdle? {
        var u := bound.(mem := bound.mem.(submissions := UpdateRun(bound, Failer()), phase := PhaseIdle), run := None);
        SaveIsKept(m, u);
      }
    }
  }

  lemma FinishKeeps(m: Machine, outcome: Outcome)
    ensures Kept(m, RunFinished(m, outcome))
    ensures SameFrozen(m.mem.submissions, RunFinished(m, outcome).mem.submissions)
  {
    if m.run.Some? && m.run.value.stage == RunPrompting && m.active.Some? {
      var subs := UpdateRun(m, Finisher(outcome));
      SettleTwice(subs, m.mem.receipts);
      SettleExtends(subs, m.mem.receipts);
    }
  }

  lemma CancelKeeps(m: Machine)
    ensures Kept(m, Cancelling(m))
    ensures SameFrozen(m.mem.submissions, Cancelling(m).mem.submissions)
  {
    if m.active.Some? && Busy(m.mem) {
      var n := FirstRunning(m.mem.submissions);
      var subs := if n < |m.mem.submissions| then m.mem.submissions[n := m.mem.submissions[n].(cancelled := true)]
                  else m.mem.submissions;
      SettleTwice(subs, m.mem.receipts);
      SettleExtends(subs, m.mem.receipts);
    }
  }

  lemma CommentKeeps(m: Machine, id: Id, body: string, quote: string)
    ensures Kept(m, Commenting(m, id, body, quote)) && Commenting(m, id, body, quote).mem.submissions == m.mem.submissions
  {
    SettleTwice(m.mem.submissions, m.mem.receipts);
    SettleExtends(m.mem.submissions, m.mem.receipts);
  }

  lemma SwitchKeeps(cfg: Config, m: Machine, target: string)
    ensures Kept(m, Switched(cfg, m, target)) && Switched(cfg, m, target).mem.submissions == m.mem.submissions
  {
    SettleTwice(m.mem.submissions, m.mem.receipts);
    SettleExtends(m.mem.submissions, m.mem.receipts);
  }

  lemma EventsKeep(m: Machine, request: string, name: Option<string>, text: string, replace: bool)
    ensures Kept(m, Save(m)) && Kept(m, Asking(m, request)) && Kept(m, Answering(m, request))
    ensures Kept(m, Receiving(m, name, text, replace))
    ensures Save(m).mem.submissions == Asking(m, request).mem.submissions == Answering(m, request).mem.submissions
         == Receiving(m, name, text, replace).mem.submissions == m.mem.submissions
  {
    SettleTwice(m.mem.submissions, m.mem.receipts);
    SettleExtends(m.mem.submissions, m.mem.receipts);
  }

  lemma MovesKeep(cfg: Config, m: Machine, step: MoveStep)
    ensures Kept(m, Moved(cfg, m, step))
    ensures Moved(cfg, m, step).mem.submissions == m.mem.submissions
  {
    SettleTwice(m.mem.submissions, m.mem.receipts);
    SettleExtends(m.mem.submissions, m.mem.receipts);
  }

  /** An accepted prompt adds at most one receipt and never touches an earlier one. */
  lemma PromptKeeps(cfg: Config, m: Machine, p: PromptRequest, review: Review, saved: bool)
    requires Sane(m) && LedgerOk(cfg, m)
    ensures var t := Prompted(cfg, m, p, review, saved).0;
      LedgerOk(cfg, t) && Extends(m.mem.receipts, t.mem.receipts) && InputsKept(m.mem.submissions, t.mem.submissions)
  {
    hide Accept, FindReceipt;
    if Prompted(cfg, m, p, review, saved).1.Accepted? {
      var s := Accept(m.mem, p, review, m.next, cfg.fallback).value;
      AcceptedLedger(cfg, m, p, review);
      SavedLedger(cfg, m, m.(mem := s, next := m.next + Minted(m.mem, review)));
    }
  }

  lemma AcceptedLedger(cfg: Config, m: Machine, p: PromptRequest, review: Review)
    requires Sane(m) && LedgerOk(cfg, m)
    requires FindReceipt(m.mem.receipts, p) == Ok(None)
    requires Accept(m.mem, p, review, m.next, cfg.fallback).Ok?
    ensures var s := Accept(m.mem, p, review, m.next, cfg.fallback).value;
      && Extends(m.mem.receipts, s.receipts) && |s.receipts| <= RECEIPT_LIMIT && DistinctOperations(s.receipts)
      && InputsKept(m.mem.submissions, s.submissions)
  {
    hide Accept;
    var s := Accept(m.mem, p, review, m.next, cfg.fallback).value;
    if IsRetry(p) {
      RetryShape(m.mem, p, review, m.next, cfg.fallback);
    } else {
      var added := AcceptShape(m.mem, p, review, m.next, cfg.fallback);
      assert s.submissions == m.mem.submissions + added;
    }
  }

  lemma SavedLedger(cfg: Config, m: Machine, u: Machine)
    requires LedgerOk(cfg, m)
    requires Extends(m.mem.receipts, u.mem.receipts) && |u.mem.receipts| <= RECEIPT_LIMIT && DistinctOperations(u.mem.receipts)
    ensures LedgerOk(cfg, Save(u)) && Extends(m.mem.receipts, Save(u).mem.receipts)
  {
    SettleTwice(u.mem.submissions, u.mem.receipts);
    SettleExtends(u.mem.submissions, u.mem.receipts);
    ExtendsIsTransitive(m.mem.receipts, u.mem.receipts, Settle(u.mem).receipts);
    ReloadExtends(cfg, Settle(u.mem));
  }

  lemma CrashKeeps(cfg: Config, m: Machine)
    requires LedgerOk(cfg, m)
    ensures LedgerOk(cfg, CrashAndReload(cfg, m)) && Extends(m.mem.receipts, CrashAndReload(cfg, m).mem.receipts)
  {
    ReloadExtends(cfg, m.disk);
  }

  /** One step, whatever it is, crash included. */
  lemma StepKeepsLedger(cfg: Config, m: Machine, e: Event)
    requires Sane(m) && LedgerOk(cfg, m)
    ensures LedgerOk(cfg, Step(cfg, m, e))
    ensures Extends(m.mem.receipts, Step(cfg, m, e).mem.receipts)
    ensures InputsKept(m.mem.submissions, Step(cfg, m, e).mem.submissions)
  {
    hide LedgerOk, Kept, Extends, SameFrozen, Sane, Prompted, Drained, RunConnected, RunFinished, RunFailed,
      Cancelling, Commenting, Switched, Moved, Receiving, Asking, Answering, CrashAndReload, Save;
    var t := Step(cfg, m, e);
    match e
    case AcceptPrompt(p, review, saved) => PromptKeeps(cfg, m, p, review, saved);
    case Crash =>
      CrashKeeps(cfg, m);
      CrashIsSane(cfg, m);
      FrozenKeepsInputs(m.mem.submissions, t.mem.submissions);
    case Drain(rendered, saved) => DrainKeeps(cfg, m, rendered, saved); KeptIsOk(cfg, m, t);
    case Connected(session) =>
      ConnectedKeeps(cfg, m, session); KeptIsOk(cfg, m, t); FrozenKeepsInputs(m.mem.submissions, t.mem.submissions);
    case Finish(outcome) =>
      FinishKeeps(m, outcome); KeptIsOk(cfg, m, t); FrozenKeepsInputs(m.mem.submissions, t.mem.submissions);
    case RunFail => FailKeepsInputs(m); KeptIsOk(cfg, m, t);
    case Retired => RetiredKeeps(m); KeptIsOk(cfg, m, t);
    case Flush => EventsKeep(m, "", None, "", false); KeptIsOk(cfg, m, t);
    case Cancel => CancelKeeps(m); KeptIsOk(cfg, m, t); FrozenKeepsInputs(m.mem.submissions, t.mem.submissions);
    case AskPermission(request) => EventsKeep(m, request, None, "", false); KeptIsOk(cfg, m, t);
    case AnswerPermission(request) => EventsKeep(m, request, None, "", false); KeptIsOk(cfg, m, t);
    case TextEvent(name, text, replace) => EventsKeep(m, "", name, text, replace); KeptIsOk(cfg, m, t);
    case SaveComment(id, body, quote) => CommentKeeps(m, id, body, quote); KeptIsOk(cfg, m, t);
    case SwitchHarness(target) => SwitchKeeps(cfg, m, target); KeptIsOk(cfg, m, t);
    case MoveOn(step) => MovesKeep(cfg, m, step); KeptIsOk(cfg, m, t);
  }

  lemma RetiredKeeps(m: Machine)
    ensures Kept(m, m.(retiring := false))
  {
  }

  lemma FailKeepsInputs(m: Machine)
    ensures InputsKept(m.mem.submissions, RunFailed(m).mem.submissions)
    ensures Kept(m, RunFailed(m))
  {
  }

  /** Over any run: receipts keep their operation, payload, batch and, once settled, their outcome; no
      accepted input is ever dropped or altered. */
  lemma {:induction false} RunsKeepLedger(cfg: Config, m: Machine, es: seq<Event>)
    requires Sane(m) && LedgerOk(cfg, m)
    ensures Sane(Steps(cfg, m, es)) && LedgerOk(cfg, Steps(cfg, m, es))
    ensures Extends(m.mem.receipts, Steps(cfg, m, es).mem.receipts)
    ensures InputsKept(m.mem.submissions, Steps(cfg, m, es).mem.submissions)
    decreases es
  {
    if es != [] {
      var t := Step(cfg, m, es[0]);
      StepIsSane(cfg, m, es[0]);
      StepKeepsLedger(cfg, m, es[0]);
      RunsKeepLedger(cfg, t, es[1..]);
      ExtendsIsTransitive(m.mem.receipts, t.mem.receipts, Steps(cfg, t, es[1..]).mem.receipts);
      InputsKeptTwice(m.mem.submissions, t.mem.submissions, Steps(cfg, t, es[1..]).mem.submissions);
    }
  }

  /** A receipt on disk is undecided exactly while a member of its batch is missing, queued or running. */
  lemma UndecidedExactlyWhilePending(cfg: Config, m: Machine, i: nat)
    requires LedgerOk(cfg, m) && i < |m.disk.receipts| && m.disk.receipts[i].outcome.None? && m.disk.receipts[i].batch != []
    ensures Pending(m.disk.submissions, m.disk.receipts[i].batch)
  {
    assert SettleAll(m.disk.submissions, m.disk.receipts)[i] == m.disk.receipts[i];
  }

  // ---- redelivery ----

  /** Once accepted, an operation is a repeat in every later state: delivering it again changes nothing,
      and the same ID with another payload is refused without a trace. */
  lemma {:induction false} AcceptedForever(cfg: Config, m: Machine, p: PromptRequest, review: Review, es: seq<Event>, again: Review, other: PromptRequest, saved: bool)
    requires Sane(m) && LedgerOk(cfg, m) && p.operation.Some?
    requires Prompted(cfg, m, p, review, true).1.Accepted?
    requires other.operation == p.operation && FingerprintOf(other) != FingerprintOf(p)
    ensures var t := Steps(cfg, Step(cfg, m, AcceptPrompt(p, review, true)), es);
      && Prompted(cfg, t, p, again, saved) == (t, Repeated)
      && Prompted(cfg, t, other, again, saved) == (t, Refused(OperationConflict))
  {
    hide Accept, Step;
    var first := Step(cfg, m, AcceptPrompt(p, review, true));
    assert first == Prompted(cfg, m, p, review, true).0 by { StepOfPrompt(cfg, m, p, review, true); }
    StepIsSane(cfg, m, AcceptPrompt(p, review, true));
    StepKeepsLedger(cfg, m, AcceptPrompt(p, review, true));
    RunsKeepLedger(cfg, first, es);
    var t := Steps(cfg, first, es);
    AcceptedHasReceipt(cfg, m, p, review);
    var k := |m.mem.receipts|;
    assert first.mem.receipts[k].operation == p.operation.value && first.mem.receipts[k].fingerprint == FingerprintOf(p);
    assert t.mem.receipts[k].operation == p.operation.value && t.mem.receipts[k].fingerprint == FingerprintOf(p);
    assert IndexOfReceipt(t.mem.receipts, p.operation.value) == k;
  }

  lemma StepOfPrompt(cfg: Config, m: Machine, p: PromptRequest, review: Review, saved: bool)
    ensures Step(cfg, m, AcceptPrompt(p, review, saved)) == Prompted(cfg, m, p, review, saved).0
  {
  }

  lemma AcceptedHasReceipt(cfg: Config, m: Machine, p: PromptRequest, review: Review)
    requires Sane(m) && p.operation.Some? && Prompted(cfg, m, p, review, true).1.Accepted?
    ensures var t := Prompted(cfg, m, p, review, true).0;
      && |t.mem.receipts| == |m.mem.receipts| + 1
      && t.mem.receipts[|m.mem.receipts|].operation == p.operation.value
      && t.mem.receipts[|m.mem.receipts|].fingerprint == FingerprintOf(p)
      && t.disk == t.mem
  {
    hide Accept, FindReceipt;
    if IsRetry(p) {
      RetryShape(m.mem, p, review, m.next, cfg.fallback);
    } else {
      AcceptedByBatch(cfg, m, p, review);
    }
  }

  lemma AcceptedByBatch(cfg: Config, m: Machine, p: PromptRequest, review: Review)
    requires Sane(m) && p.operation.Some? && !IsRetry(p) && FindReceipt(m.mem.receipts, p) == Ok(None)
    requires Accept(m.mem, p, review, m.next, cfg.fallback).Ok?
    ensures var s := Accept(m.mem, p, review, m.next, cfg.fallback).value;
      && |s.receipts| == |m.mem.receipts| + 1
      && s.receipts[|m.mem.receipts|].operation == p.operation.value
      && s.receipts[|m.mem.receipts|].fingerprint == FingerprintOf(p)
  {
    hide Accept;
    var added := AcceptShape(m.mem, p, review, m.next, cfg.fallback);
  }

  /** A prompt that is not accepted leaves memory and disk exactly as they were. */
  lemma RefusalChangesNothing(cfg: Config, m: Machine, p: PromptRequest, review: Review, saved: bool)
    ensures var (t, o) := Prompted(cfg, m, p, review, saved);
      && (!o.Accepted? ==> t.mem == m.mem && t.disk == m.disk && t.sent == m.sent && t.next == m.next)
      && (o.Refused? || o.Repeated? ==> t == m)
      && (o.Accepted? ==> saved && t.disk == t.mem)
  {
    hide Accept;
  }

  function WithoutRepeats(cfg: Config, m: Machine, es: seq<Event>): seq<Event>
    decreases es
  {
    if es == [] then []
    else
      var rest := WithoutRepeats(cfg, Step(cfg, m, es[0]), es[1..]);
      if es[0].AcceptPrompt? && Prompted(cfg, m, es[0].prompt, es[0].review, es[0].saved).1.Repeated? then rest
      else [es[0]] + rest
  }

  /** Redelivery is invisible: any run ends exactly where the run without its repeats ends. */
  lemma {:induction false} RepeatsAreInvisible(cfg: Config, m: Machine, es: seq<Event>)
    ensures Steps(cfg, m, WithoutRepeats(cfg, m, es)) == Steps(cfg, m, es)
    decreases es
  {
    if es != [] {
      hide Prompted;
      var t := Step(cfg, m, es[0]);
      RepeatsAreInvisible(cfg, t, es[1..]);
      var rest := WithoutRepeats(cfg, t, es[1..]);
      if es[0].AcceptPrompt? && Prompted(cfg, m, es[0].prompt, es[0].review, es[0].saved).1.Repeated? {
        RefusalChangesNothing(cfg, m, es[0].prompt, es[0].review, es[0].saved);
      } else {
        assert ([es[0]] + rest)[1..] == rest;
      }
    }
  }
}
