/**
 * What harnesses are told: under one request ID always the same text, over any run and any crashes, except
 * when a completed handoff's continuation is put in front of a prompt that was already dispatched.
 */
module AgentDispatch {
  import opened Common
  import opened AgentTurn
  import opened Transcript
  import opened Receipts
  import opened AgentQueue
  import opened AgentAcceptance
  import opened AgentMachine
  import opened AgentSafety
  import AgentLedger
  import AgentHandoff

  /** `submission?.attemptId ?? turnId` */
  function RequestOf(q: Submission): Id {
    q.attempt.GetOr(q.id)
  }

  ghost predicate SameTexts(sent: seq<Dispatch>) {
    forall i, j :: 0 <= i < j < |sent| && sent[i].request == sent[j].request ==> sent[i].text == sent[j].text
  }

  /** Whatever was sent under this request said exactly this. */
  ghost predicate Carries(sent: seq<Dispatch>, request: Id, text: Option<string>) {
    forall k :: 0 <= k < |sent| && sent[k].request == request ==> text == Some(sent[k].text)
  }

  ghost predicate SubmissionsCarry(sent: seq<Dispatch>, subs: seq<Submission>) {
    forall i :: 0 <= i < |subs| ==> Carries(sent, RequestOf(subs[i]), subs[i].harnessPrompt)
  }

  ghost predicate DistinctRequests(subs: seq<Submission>) {
    forall i, j :: 0 <= i < j < |subs| ==> RequestOf(subs[i]) != RequestOf(subs[j])
  }

  ghost predicate Reserved(subs: seq<Submission>, next: nat, operation: Id) {
    && operation.Uuid? && operation.serial < next
    && forall i :: 0 <= i < |subs| ==> RequestOf(subs[i]) != operation
  }

  ghost predicate HandoffCarries(sent: seq<Dispatch>, subs: seq<Submission>, next: nat, h: Handoff) {
    Reserved(subs, next, h.operation) && (!h.stage.HandoffPrepared? ==> Carries(sent, h.operation, h.prompt))
  }

  ghost predicate MoveCarries(sent: seq<Dispatch>, subs: seq<Submission>, next: nat, v: Move) {
    && Reserved(subs, next, v.intent.operation)
    && (v.stage.NeedsSummary? || v.stage.SourceReady? ==> Carries(sent, v.intent.operation, v.intent.prompt))
  }

  ghost predicate SentKnown(sent: seq<Dispatch>, receipts: seq<Receipt>, next: nat) {
    forall k :: 0 <= k < |sent| ==> KnownId(receipts, next, sent[k].request)
  }

  ghost predicate DispatchOk(m: Machine) {
    && SameTexts(m.sent)
    && SentKnown(m.sent, m.mem.receipts, m.next)
    && DistinctRequests(m.mem.submissions)
    && SubmissionsCarry(m.sent, m.mem.submissions)
    && m.mem.handoff == m.disk.handoff
    && (m.mem.handoff.Some? ==> HandoffCarries(m.sent, m.mem.submissions, m.next, m.mem.handoff.value))
    && (m.move.Some? ==> MoveCarries(m.sent, m.mem.submissions, m.next, m.move.value))
  }

  /** The next start would put a continuation in front of a prompt already dispatched under its request. */
  ghost predicate Rewrites(cfg: Config, m: Machine, e: Event) {
    && e.Drain? && e.saved && CanDrain(m) && m.mem.handoff.None? && m.mem.continuation.Some?
    && FirstQueued(m.mem.submissions) < |m.mem.submissions|
    && exists k :: 0 <= k < |m.sent| && m.sent[k].request == RequestOf(m.mem.submissions[FirstQueued(m.mem.submissions)])
  }

  // ---- steps that do not concern what is sent ----

  lemma SameRequests(a: seq<Submission>, b: seq<Submission>)
    requires SameFrozen(a, b)
    ensures forall i :: 0 <= i < |a| ==> RequestOf(a[i]) == RequestOf(b[i]) && a[i].harnessPrompt == b[i].harnessPrompt
  {
    forall i | 0 <= i < |a| ensures RequestOf(a[i]) == RequestOf(b[i]) && a[i].harnessPrompt == b[i].harnessPrompt {
      assert Frozen(a[i]) == Frozen(b[i]);
    }
  }

  lemma Unsent(m: Machine, t: Machine)
    requires DispatchOk(m) && t.sent == m.sent && m.next <= t.next
    requires SameFrozen(m.mem.submissions, t.mem.submissions) && SameBatches(m.mem.receipts, t.mem.receipts)
    requires t.mem.handoff == m.mem.handoff == t.disk.handoff && (t.move == m.move || t.move.None?)
    ensures DispatchOk(t)
  {
    SameRequests(m.mem.submissions, t.mem.submissions);
    SentStaysKnown(m.sent, m.mem.receipts, t.mem.receipts, m.next, t.next);
    SubmissionsStillCarry(m.sent, m.mem.submissions, t.mem.submissions);
  }

  lemma SubmissionsStillCarry(sent: seq<Dispatch>, a: seq<Submission>, b: seq<Submission>)
    requires SameFrozen(a, b) && SubmissionsCarry(sent, a)
    ensures SubmissionsCarry(sent, b)
  {
    SameRequests(a, b);
    forall i | 0 <= i < |b| ensures Carries(sent, RequestOf(b[i]), b[i].harnessPrompt) {
      assert Carries(sent, RequestOf(a[i]), a[i].harnessPrompt);
    }
  }

  lemma SentStaysKnown(sent: seq<Dispatch>, a: seq<Receipt>, b: seq<Receipt>, next: nat, later: nat)
    requires SentKnown(sent, a, next) && next <= later
    requires |a| <= |b| && forall i :: 0 <= i < |a| ==> a[i].operation == b[i].operation
    ensures SentKnown(sent, b, later)
  {
    forall k | 0 <= k < |sent| ensures KnownId(b, later, sent[k].request) {
      KnownIdKept(a, b, next, later, sent[k].request);
    }
  }

  lemma RequestsAreKnown(s: AgentState, next: nat, i: nat)
    requires IdsKnown(s.submissions, s.receipts, next) && i < |s.submissions|
    ensures KnownId(s.receipts, next, RequestOf(s.submissions[i]))
  {
  }

  /** Nothing has been sent yet under an identity the daemon has not used yet. */
  lemma FreshCarriesAnything(sent: seq<Dispatch>, receipts: seq<Receipt>, next: nat, id: Id, text: Option<string>)
    requires SentKnown(sent, receipts, next) && !KnownId(receipts, next, id)
    ensures Carries(sent, id, text)
  {
  }

  lemma FreshIsReserved(s: AgentState, next: nat)
    requires IdsKnown(s.submissions, s.receipts, next)
    ensures Reserved(s.submissions, next + 1, Uuid(next))
  {
    forall i | 0 <= i < |s.submissions| ensures RequestOf(s.submissions[i]) != Uuid(next) {
      RequestsAreKnown(s, next, i);
    }
  }

  // ---- accepting ----

  lemma RetrySends(m: Machine, t: Machine, n: nat)
    requires Sane(m) && DispatchOk(m)
    requires n < |m.mem.submissions| && m.next < t.next
    requires t.mem.submissions == m.mem.submissions[n := m.mem.submissions[n].(cancelled := false, attempt := Some(Uuid(m.next)), status := Queued)]
    requires t.sent == m.sent && t.move == m.move && t.mem.handoff == m.mem.handoff == t.disk.handoff
    requires |m.mem.receipts| <= |t.mem.receipts| && forall i :: 0 <= i < |m.mem.receipts| ==> m.mem.receipts[i].operation == t.mem.receipts[i].operation
    ensures DispatchOk(t)
  {
    SentStaysKnown(m.sent, m.mem.receipts, t.mem.receipts, m.next, t.next);
    var subs, after := m.mem.submissions, t.mem.submissions;
    forall i | 0 <= i < |subs| ensures RequestOf(subs[i]) != Uuid(m.next) {
      RequestsAreKnown(m.mem, m.next, i);
    }
    forall i | 0 <= i < |after| ensures Carries(t.sent, RequestOf(after[i]), after[i].harnessPrompt) {
      if i == n {
        FreshCarriesAnything(m.sent, m.mem.receipts, m.next, Uuid(m.next), after[i].harnessPrompt);
      } else {
        assert Carries(m.sent, RequestOf(subs[i]), subs[i].harnessPrompt);
      }
    }
  }

  lemma GrowthSends(m: Machine, t: Machine, p: PromptRequest, added: seq<Submission>)
    requires Sane(m) && DispatchOk(m) && m.next <= t.next
    requires t.mem.submissions == m.mem.submissions + added && Minting(p, m.next, t.next, added)
    requires forall i :: 0 <= i < |added| ==> !KnownId(m.mem.receipts, m.next, added[i].id)
    requires t.sent == m.sent && t.move == m.move && t.mem.handoff == m.mem.handoff == t.disk.handoff
    requires |m.mem.receipts| <= |t.mem.receipts| && forall i :: 0 <= i < |m.mem.receipts| ==> m.mem.receipts[i].operation == t.mem.receipts[i].operation
    ensures DispatchOk(t)
  {
    SentStaysKnown(m.sent, m.mem.receipts, t.mem.receipts, m.next, t.next);
    var k := |m.mem.submissions|;
    var after := t.mem.submissions;
    forall i | 0 <= i < |added| ensures RequestOf(after[k + i]) == added[i].id && !KnownId(m.mem.receipts, m.next, RequestOf(after[k + i])) {
      assert after[k + i] == added[i] && IsNew(added[i]);
    }
    forall i | 0 <= i < k ensures KnownId(m.mem.receipts, m.next, RequestOf(after[i])) {
      RequestsAreKnown(m.mem, m.next, i);
    }
    forall i, j | 0 <= i < j < |after| ensures RequestOf(after[i]) != RequestOf(after[j]) {
      if i >= k { assert added[i - k].id != added[j - k].id; }
      else if j >= k { assert RequestOf(after[k + (j - k)]) == added[j - k].id; }
    }
    forall i | 0 <= i < |after| ensures Carries(t.sent, RequestOf(after[i]), after[i].harnessPrompt) {
      if i < k {
        assert Carries(m.sent, RequestOf(m.mem.submissions[i]), m.mem.submissions[i].harnessPrompt);
      } else {
        assert RequestOf(after[k + (i - k)]) == added[i - k].id;
        FreshCarriesAnything(m.sent, m.mem.receipts, m.next, RequestOf(after[i]), after[i].harnessPrompt);
      }
    }
    if m.mem.handoff.Some? { GrowthStaysReserved(m, t, added, m.mem.handoff.value.operation); }
    if m.move.Some? { GrowthStaysReserved(m, t, added, m.move.value.intent.operation); }
  }

  lemma GrowthStaysReserved(m: Machine, t: Machine, added: seq<Submission>, operation: Id)
    requires Reserved(m.mem.submissions, m.next, operation) && m.next <= t.next
    requires t.mem.submissions == m.mem.submissions + added
    requires forall i :: 0 <= i < |added| ==> IsNew(added[i]) && !KnownId(m.mem.receipts, m.next, added[i].id)
    ensures Reserved(t.mem.submissions, t.next, operation)
  {
    forall i | 0 <= i < |t.mem.submissions| ensures RequestOf(t.mem.submissions[i]) != operation {
      if i >= |m.mem.submissions| {
        assert t.mem.submissions[i] == added[i - |m.mem.submissions|];
        assert IsNew(added[i - |m.mem.submissions|]);
      }
    }
  }

  lemma PromptSends(cfg: Config, m: Machine, p: PromptRequest, review: Review, saved: bool)
    requires Sane(m) && DispatchOk(m)
    ensures DispatchOk(Prompted(cfg, m, p, review, saved).0)
  {
    hide Accept, FindReceipt, DispatchOk;
    var t := Prompted(cfg, m, p, review, saved).0;
    if Prompted(cfg, m, p, review, saved).1.Accepted? {
      AcceptedSends(cfg, m, p, review);
    } else {
      AgentLedger.RefusalChangesNothing(cfg, m, p, review, saved);
      UnlinkSends(m, t);
    }
  }

  lemma UnlinkSends(m: Machine, t: Machine)
    requires DispatchOk(m) && t.mem == m.mem && t.disk == m.disk && t.sent == m.sent && t.next == m.next && t.move == m.move
    ensures DispatchOk(t)
  {
  }

  lemma AcceptedSends(cfg: Config, m: Machine, p: PromptRequest, review: Review)
    requires Sane(m) && DispatchOk(m) && FindReceipt(m.mem.receipts, p) == Ok(None)
    requires Accept(m.mem, p, review, m.next, cfg.fallback).Ok?
    ensures DispatchOk(Save(m.(mem := Accept(m.mem, p, review, m.next, cfg.fallback).value, next := m.next + Minted(m.mem, review))))
  {
    hide Accept, FindReceipt;
    var s := Accept(m.mem, p, review, m.next, cfg.fallback).value;
    var t := Save(m.(mem := s, next := m.next + Minted(m.mem, review)));
    if IsRetry(p) {
      RetryShape(m.mem, p, review, m.next, cfg.fallback);
      RetrySends(m, t, IndexOfSubmission(m.mem.submissions, p.retry.value));
    } else {
      var added := AcceptShape(m.mem, p, review, m.next, cfg.fallback);
      MintingIsFresh(m.mem, p, m.next, t.next, added);
      GrowthSends(m, t, p, added);
    }
  }

  // ---- starting and sending ----

  lemma DrainSends(cfg: Config, m: Machine, rendered: string, saved: bool)
    requires Sane(m) && DispatchOk(m) && !Rewrites(cfg, m, Drain(rendered, saved))
    ensures DispatchOk(Drained(cfg, m, rendered, saved))
  {
    if CanDrain(m) {
      if m.mem.handoff.Some? {
        MoveStartSends(m);
      } else if saved && FirstQueued(m.mem.submissions) < |m.mem.submissions| {
        StartSends(cfg, m, rendered);
      }
    }
  }

  lemma MoveStartSends(m: Machine)
    requires DispatchOk(m) && m.mem.handoff.Some?
    ensures DispatchOk(StartMove(m, Coalesced(m.mem.handoff.value)))
    ensures DispatchOk(Save(m.(mem := m.mem.(handoff := None))))
  {
    var t := StartMove(m, Coalesced(m.mem.handoff.value));
    SentStaysKnown(m.sent, m.mem.receipts, t.mem.receipts, m.next, m.next);
  }

  lemma StartSends(cfg: Config, m: Machine, rendered: string)
    requires Sane(m) && DispatchOk(m) && CanDrain(m) && m.mem.handoff.None?
    requires FirstQueued(m.mem.submissions) < |m.mem.submissions| && !Rewrites(cfg, m, Drain(rendered, true))
    ensures DispatchOk(StartSubmission(m, FirstQueued(m.mem.submissions), rendered))
  {
    var n := FirstQueued(m.mem.submissions);
    var subs := m.mem.submissions;
    var t := StartSubmission(m, n, rendered);
    SentStaysKnown(m.sent, m.mem.receipts, t.mem.receipts, m.next, m.next);
    assert forall i :: 0 <= i < |subs| ==> RequestOf(t.mem.submissions[i]) == RequestOf(subs[i]);
    forall i | 0 <= i < |subs| ensures Carries(t.sent, RequestOf(t.mem.submissions[i]), t.mem.submissions[i].harnessPrompt) {
      assert Carries(m.sent, RequestOf(subs[i]), subs[i].harnessPrompt);
    }
    assert m.move.None?;
  }

  lemma ConnectedSends(cfg: Config, m: Machine, session: string)
    requires Sane(m) && DispatchOk(m)
    ensures DispatchOk(RunConnected(cfg, m, session))
  {
    if m.run.Some? && m.run.value.stage == RunConnecting && m.active.Some? {
      if StepTurn(m.active.value.turn, Ready).TurnIdle? {
        CancelledStartSends(cfg, m, session);
      } else {
        ReadyStartSends(cfg, m, session);
      }
    }
  }

  lemma ReadyStartSends(cfg: Config, m: Machine, session: string)
    requires Sane(m) && DispatchOk(m) && m.run.Some? && m.run.value.stage == RunConnecting && m.active.Some?
    requires !StepTurn(m.active.value.turn, Ready).TurnIdle?
    ensures DispatchOk(RunConnected(cfg, m, session))
  {
    var t := RunConnected(cfg, m, session);
    var ready := if m.active.value.turn.Starting? then SetHarness(cfg, m, session) else m;
    if m.active.value.turn.Starting? { Unsent(m, ready); }
    hide DispatchOk;
    SendingRun(ready, t, m.run.value, HarnessId(cfg, m.mem));
  }

  lemma CancelledStartSends(cfg: Config, m: Machine, session: string)
    requires DispatchOk(m) && m.run.Some? && m.run.value.stage == RunConnecting && m.active.Some?
    requires StepTurn(m.active.value.turn, Ready).TurnIdle?
    ensures DispatchOk(RunConnected(cfg, m, session))
  {
    AgentLedger.ConnectedKeeps(cfg, m, session);
    AgentHandoff.ConnectedIsUnmoved(cfg, m, session);
    QuietRun(cfg, m, session, OutcomeFailed);
    hide RunConnected;
    UnsentByKept(m, RunConnected(cfg, m, session));
  }

  lemma QuietRun(cfg: Config, m: Machine, session: string, outcome: Outcome)
    ensures var t := RunConnected(cfg, m, session);
      t.next == m.next && (m.active.Some? && StepTurn(m.active.value.turn, Ready).TurnIdle? ==> t.sent == m.sent)
    ensures var t := RunFinished(m, outcome); t.next == m.next && t.sent == m.sent
    ensures var t := RunFailed(m); t.next == m.next && t.sent == m.sent && SameFrozen(m.mem.submissions, t.mem.submissions)
  {
  }

  /** Steps that send nothing and leave requests, handoff and move alone. */
  lemma UnsentByKept(m: Machine, t: Machine)
    requires DispatchOk(m) && AgentLedger.Kept(m, t) && SameFrozen(m.mem.submissions, t.mem.submissions)
    requires t.sent == m.sent && t.next == m.next && t.move == m.move && t.mem.handoff == m.mem.handoff
    requires t.disk == t.mem || t.disk == m.disk
    ensures DispatchOk(t)
  {
    assert SameBatches(m.mem.receipts, t.mem.receipts);
    Unsent(m, t);
  }

  /** Sending a run's frozen text keeps every request consistent. */
  lemma SendingRun(m: Machine, t: Machine, r: Run, harness: string)
    requires DispatchOk(m) && RunMatches(m.mem.submissions, r) && m.move.None?
    requires IdsKnown(m.mem.submissions, m.mem.receipts, m.next)
    requires t.sent == m.sent + [Dispatch(r.attempt.GetOr(r.id), r.text, harness)]
    requires t.mem == m.mem && t.disk == m.disk && t.next == m.next && t.move == m.move
    ensures DispatchOk(t)
  {
    var n := IndexOfSubmission(m.mem.submissions, r.id);
    var q := m.mem.submissions[n];
    assert RequestOf(q) == r.attempt.GetOr(r.id) && q.harnessPrompt == Some(r.text);
    assert Carries(m.sent, RequestOf(q), q.harnessPrompt);
    RequestsAreKnown(m.mem, m.next, n);
    forall i | 0 <= i < |m.mem.submissions|
      ensures Carries(t.sent, RequestOf(m.mem.submissions[i]), m.mem.submissions[i].harnessPrompt)
    {
      assert Carries(m.sent, RequestOf(m.mem.submissions[i]), m.mem.submissions[i].harnessPrompt);
    }
  }

  // ---- handoff steps ----

  lemma MoveSends(cfg: Config, m: Machine, step: MoveStep)
    requires Sane(m) && DispatchOk(m)
    ensures DispatchOk(Moved(cfg, m, step))
  {
    if m.move.Some? {
      match step
      case ConnectSource(session) => ConnectSourceSends(cfg, m, session);
      case AskSummary(rendered) => SummarySends(cfg, m, rendered);
      case TakeSummary(text) =>
      case Prepare => PrepareSends(cfg, m);
      case Retarget =>
      case ConnectTarget(session) => ConnectTargetSends(cfg, m, session);
      case Complete => CompleteSends(cfg, m);
      case FailMove =>
      case Restore => RestoreSends(cfg, m);
    }
  }

  lemma ConnectSourceSends(cfg: Config, m: Machine, session: string)
    requires DispatchOk(m)
    ensures DispatchOk(Moved(cfg, m, ConnectSource(session)))
  {
    var t := Moved(cfg, m, ConnectSource(session));
    SentStaysKnown(m.sent, m.mem.receipts, Settle(m.mem).receipts, m.next, m.next);
  }

  lemma ConnectTargetSends(cfg: Config, m: Machine, session: string)
    requires DispatchOk(m)
    ensures DispatchOk(Moved(cfg, m, ConnectTarget(session)))
  {
    SentStaysKnown(m.sent, m.mem.receipts, Settle(m.mem).receipts, m.next, m.next);
  }

  lemma PrepareSends(cfg: Config, m: Machine)
    requires DispatchOk(m)
    ensures DispatchOk(Moved(cfg, m, Prepare))
  {
    SentStaysKnown(m.sent, m.mem.receipts, Settle(m.mem).receipts, m.next, m.next);
  }

  lemma RestoreSends(cfg: Config, m: Machine)
    requires DispatchOk(m)
    ensures DispatchOk(Moved(cfg, m, Restore))
  {
    SentStaysKnown(m.sent, m.mem.receipts, Settle(m.mem).receipts, m.next, m.next);
  }

  lemma CompleteSends(cfg: Config, m: Machine)
    requires Sane(m) && DispatchOk(m)
    ensures DispatchOk(Moved(cfg, m, MoveStep.Complete))
  {
    var t := Moved(cfg, m, MoveStep.Complete);
    if t != m {
      SentStaysKnown(m.sent, m.mem.receipts, Settle(m.mem).receipts, m.next, m.next + 1);
      FreshIsReserved(m.mem, m.next);
      FreshCarriesAnything(m.sent, m.mem.receipts, m.next, Uuid(m.next), None);
    }
  }

  lemma SummarySends(cfg: Config, m: Machine, rendered: string)
    requires Sane(m) && DispatchOk(m)
    ensures DispatchOk(Moved(cfg, m, AskSummary(rendered)))
  {
    var t := Moved(cfg, m, AskSummary(rendered));
    if t != m {
      var v := m.move.value;
      var prompt := v.intent.prompt.GetOr(rendered);
      assert Carries(m.sent, v.intent.operation, v.intent.prompt);
      SentStaysKnown(m.sent, m.mem.receipts, Settle(m.mem).receipts, m.next, m.next);
      forall i | 0 <= i < |m.mem.submissions|
        ensures Carries(t.sent, RequestOf(m.mem.submissions[i]), m.mem.submissions[i].harnessPrompt)
      {
        assert Carries(m.sent, RequestOf(m.mem.submissions[i]), m.mem.submissions[i].harnessPrompt);
      }
    }
  }

  lemma SwitchSends(cfg: Config, m: Machine, target: string)
    requires Sane(m) && DispatchOk(m)
    ensures DispatchOk(Switched(cfg, m, target))
  {
    SentStaysKnown(m.sent, m.mem.receipts, Settle(m.mem).receipts, m.next, m.next + 1);
    if m.mem.handoff.Some? && (!m.mem.handoff.value.stage.HandoffQueued? || m.mem.phase.PhaseRunning?) {
    } else {
      FreshIsReserved(m.mem, m.next);
      FreshCarriesAnything(m.sent, m.mem.receipts, m.next, Uuid(m.next), None);
      NewHandoffSends(m, Handoff(target, None, Uuid(m.next), m.mem.harness, HandoffQueued, None));
    }
  }

  /** Queueing a handoff under a fresh operation, or dropping one. */
  lemma NewHandoffSends(m: Machine, h: Handoff)
    requires Sane(m) && DispatchOk(m)
    requires HandoffCarries(m.sent, m.mem.submissions, m.next + 1, h)
    ensures DispatchOk(Save(m.(mem := m.mem.(handoff := Some(h)), next := m.next + 1)))
    ensures DispatchOk(Save(m.(mem := m.mem.(handoff := None))))
  {
    SentStaysKnown(m.sent, m.mem.receipts, Settle(m.mem).receipts, m.next, m.next + 1);
  }

  lemma CrashSends(cfg: Config, m: Machine)
    requires Sane(m) && DispatchOk(m)
    ensures DispatchOk(CrashAndReload(cfg, m))
  {
    CrashIsSane(cfg, m);
    var t := CrashAndReload(cfg, m);
    assert SameBatches(m.mem.receipts, t.mem.receipts);
    Unsent(m, t);
  }

  lemma RunEndSends(m: Machine, outcome: Outcome)
    requires DispatchOk(m)
    ensures DispatchOk(RunFinished(m, outcome)) && DispatchOk(RunFailed(m))
  {
    AgentLedger.FinishKeeps(m, outcome);
    AgentLedger.FailKeepsInputs(m);
    AgentHandoff.RunEndsUnmoved(Config({}, {}, ""), m, outcome);
    QuietRun(Config({}, {}, ""), m, "", outcome);
    hide RunFinished, RunFailed;
    UnsentByKept(m, RunFinished(m, outcome));
    UnsentByKept(m, RunFailed(m));
  }

  lemma EventSends(cfg: Config, m: Machine, t: Machine, request: string, name: Option<string>, text: string, replace: bool)
    requires DispatchOk(m)
    requires t in {Save(m), Cancelling(m), Asking(m, request), Answering(m, request), Receiving(m, name, text, replace)}
    ensures DispatchOk(t)
  {
    AgentLedger.CancelKeeps(m);
    AgentLedger.EventsKeep(m, request, name, text, replace);
    AgentHandoff.EventsAreUnmoved(cfg, m, t, request, name, text, replace);
    assert SameFrozen(m.mem.submissions, t.mem.submissions);
    assert SameBatches(m.mem.receipts, t.mem.receipts);
    Unsent(m, t);
  }

  lemma CommentSends(cfg: Config, m: Machine, id: Id, body: string, quote: string)
    requires DispatchOk(m)
    ensures DispatchOk(Commenting(m, id, body, quote))
  {
    AgentLedger.CommentKeeps(m, id, body, quote);
    var t := Commenting(m, id, body, quote);
    assert SameFrozen(m.mem.submissions, t.mem.submissions);
    assert SameBatches(m.mem.receipts, t.mem.receipts);
    Unsent(m, t);
  }

  lemma StepSends(cfg: Config, m: Machine, e: Event)
    requires Sane(m) && DispatchOk(m) && !Rewrites(cfg, m, e)
    ensures DispatchOk(Step(cfg, m, e))
  {
    hide DispatchOk, Sane, Prompted, Drained, RunConnected, RunFinished, RunFailed,
      Cancelling, Commenting, Switched, Moved, Receiving, Asking, Answering, CrashAndReload, Save;
    var t := Step(cfg, m, e);
    match e
    case AcceptPrompt(p, review, saved) => PromptSends(cfg, m, p, review, saved);
    case Drain(rendered, saved) => DrainSends(cfg, m, rendered, saved);
    case Connected(session) => ConnectedSends(cfg, m, session);
    case Finish(outcome) => RunEndSends(m, outcome);
    case RunFail => RunEndSends(m, OutcomeFailed);
    case Retired => UnlinkSends(m, t);
    case Flush => EventSends(cfg, m, t, "", None, "", false);
    case Cancel => EventSends(cfg, m, t, "", None, "", false);
    case AskPermission(r) => EventSends(cfg, m, t, r, None, "", false);
    case AnswerPermission(r) => EventSends(cfg, m, t, r, None, "", false);
    case TextEvent(n, text, r) => EventSends(cfg, m, t, "", n, text, r);
    case SaveComment(id, b, q) => CommentSends(cfg, m, id, b, q);
    case SwitchHarness(target) => SwitchSends(cfg, m, target);
    case MoveOn(step) => MoveSends(cfg, m, step);
    case Crash => CrashSends(cfg, m);
  }

  ghost predicate NeverRewrites(cfg: Config, m: Machine, es: seq<Event>)
    decreases es
  {
    es == [] || (!Rewrites(cfg, m, es[0]) && NeverRewrites(cfg, Step(cfg, m, es[0]), es[1..]))
  }

  /** Over any run that never rewrites a dispatched prompt, crashes and handoffs included, two prompts sent
      under one request ID carry the same text. */
  lemma {:induction false} OneTextPerRequest(cfg: Config, m: Machine, es: seq<Event>)
    requires Sane(m) && DispatchOk(m) && NeverRewrites(cfg, m, es)
    ensures Sane(Steps(cfg, m, es)) && DispatchOk(Steps(cfg, m, es))
    ensures SameTexts(Steps(cfg, m, es).sent)
    decreases es
  {
    if es != [] {
      StepIsSane(cfg, m, es[0]);
      StepSends(cfg, m, es[0]);
      OneTextPerRequest(cfg, Step(cfg, m, es[0]), es[1..]);
    }
  }

  /** A continuation always changes the prompt it is put in front of. */
  lemma ContinueChanges(text: string, prompt: string)
    ensures |Continue(text, prompt)| > |prompt|
  {
  }

  /** Conversely, a rewrite followed by its dispatch does send two texts under one request ID. */
  lemma RewriteConflicts(cfg: Config, m: Machine, e: Event, session: string)
    requires Sane(m) && DispatchOk(m) && Rewrites(cfg, m, e)
    requires var a := Step(cfg, m, e).active; a.Some? && !StepTurn(a.value.turn, Ready).TurnIdle?
    ensures !SameTexts(Step(cfg, Step(cfg, m, e), Connected(session)).sent)
  {
    var n := FirstQueued(m.mem.submissions);
    var q := m.mem.submissions[n];
    var t := StartSubmission(m, n, e.rendered);
    assert t == Step(cfg, m, e);
    var k :| 0 <= k < |m.sent| && m.sent[k].request == RequestOf(q);
    assert Carries(m.sent, RequestOf(q), q.harnessPrompt);
    ContinueChanges(m.mem.continuation.value, m.sent[k].text);
    var u := RunConnected(cfg, t, session);
    assert u.sent == m.sent + [Dispatch(RequestOf(q), Continue(m.mem.continuation.value, m.sent[k].text), HarnessId(cfg, t.mem))];
    assert u == Step(cfg, t, Connected(session));
    assert u.sent[k] == m.sent[k] && u.sent[|m.sent|].request == u.sent[k].request;
    assert u.sent[|m.sent|].text != u.sent[k].text;
  }
}
