/**
 * What holds in every state the Thread agent can reach, whatever prompts, harness events, handoffs and
 * crashes arrive: identities, the single running submission, and acceptance that is never lost.
 */
module AgentSafety {
  import opened Common
  import opened AgentTurn
  import opened Transcript
  import opened Receipts
  import opened AgentQueue
  import opened AgentAcceptance
  import opened AgentMachine

  /** The part of a submission that running, failing and cancelling leave alone. */
  function Frozen(q: Submission): Submission {
    q.(status := Queued, cancelled := false)
  }

  ghost predicate SameFrozen(a: seq<Submission>, b: seq<Submission>) {
    && |a| == |b|
    && forall i :: 0 <= i < |a| ==> Frozen(a[i]) == Frozen(b[i])
  }

  ghost predicate DistinctIds(subs: seq<Submission>) {
    forall i, j :: 0 <= i < j < |subs| ==> subs[i].id != subs[j].id
  }

  ghost predicate IdsKnown(subs: seq<Submission>, receipts: seq<Receipt>, next: nat) {
    forall i :: 0 <= i < |subs| ==>
      && KnownId(receipts, next, subs[i].id)
      && (subs[i].attempt.Some? ==> subs[i].attempt.value.Uuid? && subs[i].attempt.value.serial < next)
  }

  ghost predicate QueueOk(s: AgentState, next: nat) {
    DistinctIds(s.submissions) && IdsKnown(s.submissions, s.receipts, next)
  }

  /** A suspended run belongs to a submission that is running and was told exactly the run's text. */
  ghost predicate RunMatches(subs: seq<Submission>, r: Run) {
    var n := IndexOfSubmission(subs, r.id);
    n < |subs| && subs[n].status == Running && subs[n].harnessPrompt == Some(r.text) && subs[n].attempt == r.attempt
  }

  ghost predicate TasksOk(m: Machine) {
    && (m.run.Some? ==> m.move.None? && Busy(m.mem) && RunMatches(m.mem.submissions, m.run.value))
    && (m.move.Some? ==> Busy(m.mem))
  }

  ghost predicate DiskAgrees(m: Machine) {
    && SameFrozen(m.mem.submissions, m.disk.submissions)
    && SameBatches(m.mem.receipts, m.disk.receipts)
  }

  ghost predicate Sane(m: Machine) {
    QueueOk(m.mem, m.next) && TasksOk(m) && DiskAgrees(m)
  }

  lemma KnownIdKept(a: seq<Receipt>, b: seq<Receipt>, next: nat, later: nat, id: Id)
    requires KnownId(a, next, id) && next <= later
    requires |a| <= |b| && forall i :: 0 <= i < |a| ==> a[i].operation == b[i].operation
    ensures KnownId(b, later, id)
  {
    if id.Key? {
      var n := IndexOfReceipt(a, id.name);
      assert b[n].operation == id.name;
    }
  }

  lemma IdsKnownKept(a: AgentState, b: AgentState, next: nat, later: nat)
    requires IdsKnown(a.submissions, a.receipts, next) && next <= later
    requires SameFrozen(a.submissions, b.submissions)
    requires |a.receipts| <= |b.receipts| && forall i :: 0 <= i < |a.receipts| ==> a.receipts[i].operation == b.receipts[i].operation
    ensures IdsKnown(b.submissions, b.receipts, later)
  {
    forall i | 0 <= i < |b.submissions|
      ensures KnownId(b.receipts, later, b.submissions[i].id)
      ensures b.submissions[i].attempt.Some? ==> b.submissions[i].attempt.value.Uuid? && b.submissions[i].attempt.value.serial < later
    {
      assert Frozen(a.submissions[i]) == Frozen(b.submissions[i]);
      assert a.submissions[i].id == b.submissions[i].id && a.submissions[i].attempt == b.submissions[i].attempt;
      KnownIdKept(a.receipts, b.receipts, next, later, a.submissions[i].id);
    }
  }

  lemma DistinctKept(a: seq<Submission>, b: seq<Submission>)
    requires DistinctIds(a) && SameFrozen(a, b)
    ensures DistinctIds(b)
  {
    assert forall i :: 0 <= i < |a| ==> Frozen(a[i]).id == a[i].id && Frozen(b[i]).id == b[i].id;
  }

  /** A save makes the disk agree, so only memory needs an argument. */
  lemma SaveIsSane(m: Machine)
    requires QueueOk(m.mem, m.next) && TasksOk(m)
    ensures Sane(Save(m))
  {
    IdsKnownKept(m.mem, Settle(m.mem), m.next, m.next);
  }

  /** Steps that leave the queue, the receipts and the tasks alone. */
  lemma OthersKeepMemory(m: Machine, t: Machine)
    requires QueueOk(m.mem, m.next) && TasksOk(m)
    requires t.mem.submissions == m.mem.submissions && t.mem.receipts == m.mem.receipts
    requires m.next <= t.next && t.run == m.run && t.move == m.move && (Busy(m.mem) ==> Busy(t.mem))
    ensures QueueOk(t.mem, t.next) && TasksOk(t)
  {
    IdsKnownKept(m.mem, t.mem, m.next, t.next);
  }

  // ---- one lemma per kind of step ----

  lemma AcceptIsSane(m: Machine, p: PromptRequest, review: Review, fallback: string)
    requires Sane(m)
    requires FindReceipt(m.mem.receipts, p) == Ok(None)
    requires Accept(m.mem, p, review, m.next, fallback).Ok?
    ensures var t := m.(mem := Accept(m.mem, p, review, m.next, fallback).value, next := m.next + Minted(m.mem, review));
            QueueOk(t.mem, t.next) && TasksOk(t)
  {
    hide Accept, EnqueueRequest, FindReceipt;
    var later := m.next + Minted(m.mem, review);
    var t := m.(mem := Accept(m.mem, p, review, m.next, fallback).value, next := later);
    if IsRetry(p) {
      RetryShape(m.mem, p, review, m.next, fallback);
      RetryIsSane(m, t, p);
    } else {
      var added := AcceptShape(m.mem, p, review, m.next, fallback);
      MintingIsFresh(m.mem, p, m.next, later, added);
      assert Minting(p, m.next, t.next, added);
      GrowthIsSane(m, t, p, added);
    }
  }

  /** One receipt more, naming the batch, exactly when the prompt has an operation ID. */
  ghost predicate Recorded(before: seq<Receipt>, after: seq<Receipt>, p: PromptRequest, batch: seq<Id>) {
    if p.operation.None? then after == before
    else
      && |after| == |before| + 1
      && (forall i :: 0 <= i < |before| ==> after[i] == before[i])
      && after[|before|] == Receipt(p.operation.value, FingerprintOf(p), batch, None)
  }

  /** What the receipt names. A request that carries a comment and a retry enqueues the comment, but its
      receipt names the retry. */
  function BatchOf(p: PromptRequest, added: seq<Submission>): seq<Id> {
    if p.retry.Some? then [p.retry.value] else IdsOf(added)
  }

  /** An accepted prompt that is not a retry: the queue and the user messages grow by the same batch, and
      the receipt, if there is an operation, names exactly that batch. */
  lemma AcceptShape(s: AgentState, p: PromptRequest, review: Review, next: nat, fallback: string)
    returns (added: seq<Submission>)
    requires !IsRetry(p) && Accept(s, p, review, next, fallback).Ok?
    requires FindReceipt(s.receipts, p) == Ok(None) && IdsKnown(s.submissions, s.receipts, next)
    ensures var t := Accept(s, p, review, next, fallback).value;
      && t.submissions == s.submissions + added
      && t.messages == s.messages + InputMessages(added)
      && t.phase == s.phase && t.continuation == s.continuation && t.handoff == s.handoff
      && t.harness == Bound(s, fallback).harness
      && Recorded(s.receipts, t.receipts, p, BatchOf(p, added))
      && (p.operation.Some? ==> BatchOf(p, added) != [])
    ensures Minting(p, next, next + Minted(s, review), added)
  {
    hide EnqueueRequest, FindReceipt, Record;
    var b := Bound(s, fallback);
    added := QueuedShape(b, p, review, next);
    MintingIsFresh(s, p, next, next + Minted(s, review), added);
    assert forall i :: 0 <= i < |added| ==> IndexOfSubmission(s.submissions, added[i].id) == |s.submissions|;
    forall i | 0 <= i < |s.submissions| ensures IndexOfSubmission(s.submissions, s.submissions[i].id) < |s.submissions| {}
    NewIdsOfKept(s.submissions, s.submissions, added);
    NewIdsOfAdded(s.submissions, added);
    var u := EnqueueRequest(b, p, review, next).value;
    assert Accept(s, p, review, next, fallback) == Record(u, s, p);
    RecordNew(u, s, p, BatchOf(p, added));
  }

  lemma RecordNew(u: AgentState, s: AgentState, p: PromptRequest, batch: seq<Id>)
    requires batch == (if p.retry.Some? then [p.retry.value] else NewIds(s.submissions, u.submissions))
    requires Record(u, s, p).Ok?
    ensures var t := Record(u, s, p).value;
      t == u.(receipts := t.receipts) && Recorded(u.receipts, t.receipts, p, batch) && (p.operation.Some? ==> batch != [])
  {
  }

  /** An accepted retry: one failed submission is queued again under a fresh attempt, nothing is added. */
  lemma RetryShape(s: AgentState, p: PromptRequest, review: Review, next: nat, fallback: string)
    requires IsRetry(p) && Accept(s, p, review, next, fallback).Ok?
    ensures var t := Accept(s, p, review, next, fallback).value;
      var n := IndexOfSubmission(s.submissions, p.retry.value);
      && n < |s.submissions| && s.submissions[n].status == Failed
      && t.submissions == s.submissions[n := s.submissions[n].(cancelled := false, attempt := Some(Uuid(next)), status := Queued)]
      && t.messages == s.messages
      && t.phase == s.phase && t.continuation == s.continuation && t.handoff == s.handoff
      && t.harness == Bound(s, fallback).harness
      && Recorded(s.receipts, t.receipts, p, [p.retry.value])
  {
    hide EnqueueRequest, FindReceipt;
    var b := Bound(s, fallback);
    RetryIsRequest(b, p, review, next);
    var u := RetrySubmission(b, p.retry.value, Uuid(next)).value;
    RecordRetry(u, s, p);
    assert Accept(s, p, review, next, fallback) == Record(u, s, p);
    assert u.receipts == b.receipts == s.receipts;
  }

  lemma RetryIsRequest(b: AgentState, p: PromptRequest, review: Review, next: nat)
    requires IsRetry(p)
    ensures EnqueueRequest(b, p, review, next) == RetrySubmission(b, p.retry.value, Uuid(next))
  {
  }

  lemma RecordRetry(u: AgentState, s: AgentState, p: PromptRequest)
    requires p.retry.Some?
    ensures Record(u, s, p).Ok?
    ensures var t := Record(u, s, p).value;
      && t == u.(receipts := t.receipts)
      && Recorded(u.receipts, t.receipts, p, [p.retry.value])
  {
    assert [p.retry.value] != [];
  }

  lemma GrowthIsSane(m: Machine, t: Machine, p: PromptRequest, added: seq<Submission>)
    requires Sane(m) && m.next <= t.next && t.run == m.run && t.move == m.move && t.mem.phase == m.mem.phase
    requires t.mem.submissions == m.mem.submissions + added
    requires Recorded(m.mem.receipts, t.mem.receipts, p, BatchOf(p, added))
    requires Minting(p, m.next, t.next, added)
    requires forall i :: 0 <= i < |added| ==> !KnownId(m.mem.receipts, m.next, added[i].id)
    ensures QueueOk(t.mem, t.next) && TasksOk(t)
  {
    GrowthIsKnown(m.mem, t.mem, m.next, t.next, p, added);
    GrowthIsDistinct(m.mem, m.next, added);
    if m.run.Some? {
      var n := IndexOfSubmission(m.mem.submissions, m.run.value.id);
      assert t.mem.submissions[n] == m.mem.submissions[n];
      assert forall i :: 0 <= i < n ==> t.mem.submissions[i] == m.mem.submissions[i];
      assert IndexOfSubmission(t.mem.submissions, m.run.value.id) == n;
    }
  }

  lemma GrowthIsKnown(s: AgentState, t: AgentState, next: nat, later: nat, p: PromptRequest, added: seq<Submission>)
    requires IdsKnown(s.submissions, s.receipts, next) && next <= later
    requires t.submissions == s.submissions + added
    requires Recorded(s.receipts, t.receipts, p, BatchOf(p, added))
    requires Minting(p, next, later, added)
    ensures IdsKnown(t.submissions, t.receipts, later)
  {
    var k := |s.submissions|;
    forall i | 0 <= i < |t.submissions|
      ensures KnownId(t.receipts, later, t.submissions[i].id)
      ensures t.submissions[i].attempt.Some? ==> t.submissions[i].attempt.value.Uuid? && t.submissions[i].attempt.value.serial < later
    {
      if i < k {
        assert t.submissions[i] == s.submissions[i];
        KnownIdKept(s.receipts, t.receipts, next, later, s.submissions[i].id);
      } else {
        assert t.submissions[i] == added[i - k];
        assert IsNew(added[i - k]);
        if added[i - k].id.Key? {
          assert t.receipts[|s.receipts|].operation == p.operation.value;
        }
      }
    }
  }

  lemma GrowthIsDistinct(s: AgentState, next: nat, added: seq<Submission>)
    requires QueueOk(s, next)
    requires forall i :: 0 <= i < |added| ==> !KnownId(s.receipts, next, added[i].id)
    requires forall i, j :: 0 <= i < j < |added| ==> added[i].id != added[j].id
    ensures DistinctIds(s.submissions + added)
  {
    var all := s.submissions + added;
    var k := |s.submissions|;
    forall i, j | 0 <= i < j < |all| ensures all[i].id != all[j].id {
      if i < k <= j {
        assert KnownId(s.receipts, next, s.submissions[i].id) && !KnownId(s.receipts, next, added[j - k].id);
      }
    }
  }

  lemma RetryIsSane(m: Machine, t: Machine, p: PromptRequest)
    requires Sane(m) && m.next < t.next && t.run == m.run && t.move == m.move && t.mem.phase == m.mem.phase
    requires p.retry.Some?
    requires var n := IndexOfSubmission(m.mem.submissions, p.retry.value);
      && n < |m.mem.submissions| && m.mem.submissions[n].status == Failed
      && t.mem.submissions == m.mem.submissions[n := m.mem.submissions[n].(cancelled := false, attempt := Some(Uuid(m.next)), status := Queued)]
    requires Recorded(m.mem.receipts, t.mem.receipts, p, [p.retry.value])
    ensures QueueOk(t.mem, t.next) && TasksOk(t)
  {
    forall i | 0 <= i < |t.mem.submissions|
      ensures KnownId(t.mem.receipts, t.next, t.mem.submissions[i].id)
    {
      KnownIdKept(m.mem.receipts, t.mem.receipts, m.next, t.next, m.mem.submissions[i].id);
    }
    if m.run.Some? {
      var n := IndexOfSubmission(m.mem.submissions, m.run.value.id);
      SameIndex(m.mem.submissions, t.mem.submissions, m.run.value.id);
    }
  }

  lemma SameIndex(a: seq<Submission>, b: seq<Submission>, id: Id)
    requires |a| == |b| && forall i :: 0 <= i < |a| ==> a[i].id == b[i].id
    ensures IndexOfSubmission(a, id) == IndexOfSubmission(b, id)
  {
  }

  lemma StartIsSane(m: Machine, n: nat, rendered: string)
    requires Sane(m) && CanDrain(m)
    requires n < |m.mem.submissions| && m.mem.submissions[n].status == Queued
    ensures Sane(StartSubmission(m, n, rendered))
  {
    var q := m.mem.submissions[n];
    var text := StartText(m.mem, q, rendered);
    var t := m.(mem := m.mem.(submissions := m.mem.submissions[n := q.(status := StepSubmission(q.status, Begin, true), harnessPrompt := Some(text))],
                              phase := PhaseRunning, continuation := None),
                run := Some(Run(q.id, q.attempt, text, true, RunConnecting)),
                active := Connect(m.active, q.id));
    SameIndex(m.mem.submissions, t.mem.submissions, q.id);
    assert IndexOfSubmission(m.mem.submissions, q.id) == n;
    SaveIsSane(t);
  }

  lemma DrainIsSane(cfg: Config, m: Machine, rendered: string, saved: bool)
    requires Sane(m)
    ensures Sane(Drained(cfg, m, rendered, saved))
  {
    if CanDrain(m) {
      if m.mem.handoff.Some? {
        var h := m.mem.handoff.value;
        if Drops(cfg, m.mem, h) {
          SaveIsSane(m.(mem := m.mem.(handoff := None)));
        } else {
          var c := Coalesced(h);
          var original := if c.stage.HandoffQueued? then m.mem.harness else c.source;
          var stage := if c.stage.HandoffPrepared? then HasText(c.stage.text)
                       else if m.mem.messages == [] then HasText("")
                       else NeedsSummary;
          SaveIsSane(m.(mem := m.mem.(handoff := Some(c), phase := PhaseRunning),
                        move := Some(Move(stage, c.(source := original), original)),
                        active := if stage.NeedsSummary? then Connect(m.active, c.operation) else m.active));
        }
      } else if FirstQueued(m.mem.submissions) < |m.mem.submissions| && saved {
        StartIsSane(m, FirstQueued(m.mem.submissions), rendered);
      }
    }
  }

  /** The run's update touches one submission's status and cancellation, and then the run is over. */
  lemma RunEndIsSane(m: Machine, t: Machine, f: Submission -> Submission)
    requires Sane(m) && m.run.Some?
    requires forall q :: Frozen(f(q)) == Frozen(q)
    requires t.mem.submissions == UpdateRun(m, f) && t.mem.receipts == m.mem.receipts
    requires t.next == m.next && t.run.None? && t.move == m.move && t.disk == m.disk
    ensures QueueOk(t.mem, t.next) && TasksOk(t) && DiskAgrees(t)
  {
    assert forall q :: Frozen(f(q)).id == q.id && Frozen(f(q)) == Frozen(q);
    assert SameFrozen(m.mem.submissions, t.mem.submissions);
    DistinctKept(m.mem.submissions, t.mem.submissions);
    IdsKnownKept(m.mem, t.mem, m.next, t.next);
  }

  lemma ConnectedIsSane(cfg: Config, m: Machine, session: string)
    requires Sane(m)
    ensures Sane(RunConnected(cfg, m, session))
  {
    if m.run.Some? && m.run.value.stage == RunConnecting && m.active.Some? {
      var r := m.run.value;
      var turn := StepTurn(m.active.value.turn, Ready);
      var ready := if m.active.value.turn.Starting? then SetHarness(cfg, m, session) else m;
      if m.active.value.turn.Starting? {
        SaveIsSane(m.(mem := m.mem.(harness := Some(Harness(HarnessId(cfg, m.mem), Some(session))))));
      }
      var bound := ready.(active := Some(Active(turn, r.id, r.attempt, m.active.value.summary)));
      assert Sane(bound);
      if turn.TurnIdle? {
        var f := Failer();
        var t := bound.(mem := bound.mem.(submissions := UpdateRun(bound, f), phase := PhaseIdle), run := None);
        RunEndIsSane(bound, t, f);
        SaveIsSane(t);
      }
    }
  }

  lemma FinishIsSane(m: Machine, outcome: Outcome)
    requires Sane(m)
    ensures Sane(RunFinished(m, outcome))
  {
    if m.run.Some? && m.run.value.stage == RunPrompting && m.active.Some? {
      var r := m.run.value;
      var f := Finisher(outcome);
      var messages := if outcome.OutcomeCompleted?
                      then FinalizeOwner(m.mem.messages, r.id, Counter(r.attempt))
                      else m.mem.messages;
      var t := m.(mem := m.mem.(messages := messages, phase := PhaseIdle, submissions := UpdateRun(m, f)),
                  active := Some(m.active.value.(turn := StepTurn(m.active.value.turn, Finished))), run := None);
      RunEndIsSane(m, t, f);
      SaveIsSane(t);
    }
  }

  lemma FailIsSane(m: Machine)
    requires Sane(m)
    ensures Sane(RunFailed(m))
  {
    if m.run.Some? {
      RunEndIsSane(m, RunFailed(m), Failer());
    }
  }

  lemma CancelIsSane(m: Machine)
    requires Sane(m)
    ensures Sane(Cancelling(m))
  {
    if m.active.Some? && Busy(m.mem) {
      var n := FirstRunning(m.mem.submissions);
      var subs := if n < |m.mem.submissions| then m.mem.submissions[n := m.mem.submissions[n].(cancelled := true)]
                  else m.mem.submissions;
      var t := m.(active := Some(m.active.value.(turn := StepTurn(m.active.value.turn, Stop))),
                  mem := m.mem.(phase := PhaseRunning, submissions := subs));
      assert SameFrozen(m.mem.submissions, subs);
      DistinctKept(m.mem.submissions, subs);
      IdsKnownKept(m.mem, t.mem, m.next, t.next);
      if m.run.Some? { SameIndex(m.mem.submissions, subs, m.run.value.id); }
      SaveIsSane(t);
    }
  }

  lemma CrashIsSane(cfg: Config, m: Machine)
    requires Sane(m)
    ensures Sane(CrashAndReload(cfg, m))
    ensures SameFrozen(m.mem.submissions, CrashAndReload(cfg, m).mem.submissions)
    ensures forall i :: 0 <= i < |m.mem.submissions| ==> CrashAndReload(cfg, m).mem.submissions[i].status != Running
  {
    var t := CrashAndReload(cfg, m);
    assert SameFrozen(t.mem.submissions, m.disk.submissions);
    assert SameBatches(t.mem.receipts, m.disk.receipts);
    assert SameFrozen(m.mem.submissions, t.mem.submissions);
    DistinctKept(m.mem.submissions, t.mem.submissions);
    IdsKnownKept(m.mem, t.mem, m.next, t.next);
  }

  lemma SwitchIsSane(cfg: Config, m: Machine, target: string)
    requires Sane(m)
    ensures Sane(Switched(cfg, m, target))
  {
    var t := Switched(cfg, m, target);
    if t != m {
      var u := m.(mem := m.mem.(handoff := t.mem.handoff), next := t.next);
      assert t == Save(u);
      OthersKeepMemory(m, u);
      SaveIsSane(u);
    }
  }

  lemma MoveIsSane(cfg: Config, m: Machine, step: MoveStep)
    requires Sane(m)
    ensures Sane(Moved(cfg, m, step))
  {
    var t := Moved(cfg, m, step);
    if m.move.Some? && t != m {
      assert m.run.None? && t.run.None?;
      IdsKnownKept(m.mem, t.mem, m.next, t.next);
    }
  }

  lemma PromptIsSane(cfg: Config, m: Machine, p: PromptRequest, review: Review, saved: bool)
    requires Sane(m)
    ensures Sane(Prompted(cfg, m, p, review, saved).0)
  {
    hide Accept;
    if FindReceipt(m.mem.receipts, p) == Ok(None) && Accept(m.mem, p, review, m.next, cfg.fallback).Ok? {
      AcceptIsSane(m, p, review, cfg.fallback);
      SaveIsSane(m.(mem := Accept(m.mem, p, review, m.next, cfg.fallback).value, next := m.next + Minted(m.mem, review)));
    }
  }

  lemma StepIsSane(cfg: Config, m: Machine, e: Event)
    requires Sane(m)
    ensures Sane(Step(cfg, m, e))
  {
    match e
    case AcceptPrompt(p, review, saved) => PromptIsSane(cfg, m, p, review, saved);
    case Drain(rendered, saved) => DrainIsSane(cfg, m, rendered, saved);
    case Connected(session) => ConnectedIsSane(cfg, m, session);
    case Finish(outcome) => FinishIsSane(m, outcome);
    case RunFail => FailIsSane(m);
    case Retired =>
    case Flush => SaveIsSane(m);
    case Cancel => CancelIsSane(m);
    case AskPermission(request) =>
      if Step(cfg, m, e) != m { SaveIsSane(m.(mem := m.mem.(phase := PhasePermission(request)))); }
    case AnswerPermission(request) =>
      if Step(cfg, m, e) != m { SaveIsSane(m.(mem := m.mem.(phase := PhaseRunning))); }
    case TextEvent(name, text, replace) => TextIsSane(m, name, text, replace);
    case SaveComment(id, body, quote) => CommentIsSane(m, id, body, quote);
    case SwitchHarness(target) => SwitchIsSane(cfg, m, target);
    case MoveOn(step) => MoveIsSane(cfg, m, step);
    case Crash => CrashIsSane(cfg, m);
  }

  lemma TextIsSane(m: Machine, name: Option<string>, text: string, replace: bool)
    requires Sane(m)
    ensures Sane(Receiving(m, name, text, replace))
  {
    if m.active.Some? {
      var messages := ApplyUpdate(m.mem.messages, TextUpdate(m.active.value, name, text, replace));
      SaveIsSane(m.(mem := m.mem.(messages := messages)));
    }
  }

  lemma CommentIsSane(m: Machine, id: Id, body: string, quote: string)
    requires Sane(m)
    ensures Sane(Commenting(m, id, body, quote))
  {
    var t := Commenting(m, id, body, quote);
    if t != m {
      var u := m.(mem := m.mem.(comments := t.mem.comments));
      assert t == Save(u);
      SaveIsSane(u);
    }
  }
}
