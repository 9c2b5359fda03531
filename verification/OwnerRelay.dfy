/**
 * The owner's relay (packages/adapters/src/owner-agent-relay.ts): a share's requests are delivered to the
 * local daemon in order, over and over, until each has been acknowledged; and a request is acknowledged only
 * once its receipt is on disk.
 */
module OwnerRelay {
  import opened Common
  import opened Receipts
  import opened AgentQueue
  import opened AgentMachine
  import opened AgentSafety
  import opened AgentLedger
  import opened ThreadAgents

  /** The receipt of this very request is on disk. */
  ghost predicate Durable(m: Machine, p: PromptRequest) {
    && p.operation.Some?
    && exists i :: 0 <= i < |m.disk.receipts| && IsReceipt(m.disk.receipts[i], p)
  }

  predicate IsReceipt(r: Receipt, p: PromptRequest)
    requires p.operation.Some?
  {
    r.operation == p.operation.value && r.fingerprint == FingerprintOf(p)
  }

  /** What is durable stays durable, whatever happens next. */
  lemma DurableStays(cfg: Config, m: Machine, e: Event, p: PromptRequest)
    requires Sane(m) && LedgerOk(cfg, m) && Durable(m, p)
    ensures Sane(Step(cfg, m, e)) && LedgerOk(cfg, Step(cfg, m, e)) && Durable(Step(cfg, m, e), p)
  {
    StepIsSane(cfg, m, e);
    StepKeepsLedger(cfg, m, e);
    hide Step, Sane;
    var t := Step(cfg, m, e);
    var i :| 0 <= i < |m.disk.receipts| && IsReceipt(m.disk.receipts[i], p);
    assert m.mem.receipts[i].operation == m.disk.receipts[i].operation;
    assert t.mem.receipts[i].operation == t.disk.receipts[i].operation;
    assert IsReceipt(t.disk.receipts[i], p);
  }

  /** A durable request is a repeat: prompting with it again changes nothing. */
  lemma DurableIsRepeated(cfg: Config, m: Machine, p: PromptRequest, review: Review, saved: bool)
    requires LedgerOk(cfg, m) && Durable(m, p)
    ensures Prompted(cfg, m, p, review, saved) == (m, Repeated)
  {
    var i :| 0 <= i < |m.disk.receipts| && IsReceipt(m.disk.receipts[i], p);
    assert IsReceipt(m.mem.receipts[i], p);
    assert IndexOfReceipt(m.mem.receipts, p.operation.value) == i;
  }

  /** A prompt that is answered without an error leaves its receipt on disk. */
  lemma AnsweredIsDurable(cfg: Config, m: Machine, p: PromptRequest, review: Review, saved: bool)
    requires Sane(m) && LedgerOk(cfg, m) && p.operation.Some?
    requires var o := Prompted(cfg, m, p, review, saved).1; o.Accepted? || o.Repeated?
    ensures Durable(Prompted(cfg, m, p, review, saved).0, p)
  {
    hide Accept;
    var (t, o) := Prompted(cfg, m, p, review, saved);
    if o.Accepted? {
      assert saved;
      AcceptedHasReceipt(cfg, m, p, review);
      assert IsReceipt(t.disk.receipts[|m.mem.receipts|], p);
    } else {
      var n := IndexOfReceipt(m.mem.receipts, p.operation.value);
      assert IsReceipt(m.disk.receipts[n], p);
    }
  }

  /** The events of one delivery of some requests. */
  function Deliveries(requests: seq<PromptRequest>, review: Review): (es: seq<Event>)
    ensures |es| == |requests|
  {
    seq(|requests|, i requires 0 <= i < |requests| => AcceptPrompt(requests[i], review, true))
  }

  /** Redelivering acknowledged requests, any number of them in any order, is invisible. */
  lemma {:induction false} RedeliveryIsInvisible(cfg: Config, m: Machine, requests: seq<PromptRequest>, review: Review)
    requires LedgerOk(cfg, m) && forall i :: 0 <= i < |requests| ==> Durable(m, requests[i])
    ensures Steps(cfg, m, Deliveries(requests, review)) == m
    decreases |requests|
  {
    if requests != [] {
      hide Prompted, LedgerOk, Durable;
      var es := Deliveries(requests, review);
      DurableIsRepeated(cfg, m, requests[0], review, true);
      assert es[0] == AcceptPrompt(requests[0], review, true);
      assert es[1..] == Deliveries(requests[1..], review);
      RedeliveryIsInvisible(cfg, m, requests[1..], review);
    }
  }

  ghost predicate AllDurable(m: Machine, requests: seq<PromptRequest>) {
    forall k :: 0 <= k < |requests| ==> Durable(m, requests[k])
  }

  function Operations(requests: seq<PromptRequest>): seq<string>
    requires forall i :: 0 <= i < |requests| ==> requests[i].operation.Some?
  {
    seq(|requests|, i requires 0 <= i < |requests| => requests[i].operation.value)
  }

  /** The request loop of one connection: deliver in order, stop at the first error, and acknowledge what went
      through. `saved` says which of the daemon's writes succeed. */
  method RelayRequests(agent: ThreadAgent, review: Review, requests: seq<PromptRequest>, saved: seq<bool>)
    returns (accepted: seq<string>, stopped: bool)
    requires Sane(agent.View()) && LedgerOk(agent.cfg, agent.View())
    requires |saved| == |requests| && forall i :: 0 <= i < |requests| ==> requests[i].operation.Some?
    modifies agent
    ensures Sane(agent.View()) && LedgerOk(agent.cfg, agent.View())
    ensures |accepted| <= |requests| && (stopped <==> |accepted| < |requests|)
    ensures accepted == Operations(requests[..|accepted|]) && AllDurable(agent.View(), requests[..|accepted|])
  {
    accepted := [];
    var i := 0;
    while i < |requests|
      invariant 0 <= i <= |requests| && |accepted| == i
      invariant Sane(agent.View()) && LedgerOk(agent.cfg, agent.View())
      invariant accepted == Operations(requests[..i]) && AllDurable(agent.View(), requests[..i])
    {
      hide Sane, LedgerOk, AllDurable;
      var answered := RelayOne(agent, review, requests[i], saved[i], requests[..i]);
      if !answered { return accepted, true; }
      assert requests[..i + 1] == requests[..i] + [requests[i]];
      accepted := accepted + [requests[i].operation.value];
      i := i + 1;
    }
    stopped := false;
  }

  method RelayOne(agent: ThreadAgent, review: Review, p: PromptRequest, saved: bool, ghost earlier: seq<PromptRequest>)
    returns (answered: bool)
    requires Sane(agent.View()) && LedgerOk(agent.cfg, agent.View()) && p.operation.Some? && AllDurable(agent.View(), earlier)
    modifies agent
    ensures Sane(agent.View()) && LedgerOk(agent.cfg, agent.View()) && AllDurable(agent.View(), earlier)
    ensures answered ==> AllDurable(agent.View(), earlier + [p])
  {
    hide *;
    PromptKeepsDurable(agent.cfg, agent.View(), p, review, saved, earlier);
    PromptAnswers(agent.cfg, agent.View(), p, review, saved, earlier);
    var outcome := agent.Prompt(p, review, saved);
    answered := outcome.Accepted? || outcome.Repeated?;
  }

  lemma PromptKeepsDurable(cfg: Config, m: Machine, p: PromptRequest, review: Review, saved: bool, earlier: seq<PromptRequest>)
    requires Sane(m) && LedgerOk(cfg, m) && AllDurable(m, earlier)
    ensures var t := Prompted(cfg, m, p, review, saved).0;
      Sane(t) && LedgerOk(cfg, t) && AllDurable(t, earlier)
  {
    hide Sane, LedgerOk, Durable, Prompted;
    var e := AcceptPrompt(p, review, saved);
    StepOfPrompt(cfg, m, p, review, saved);
    StepIsSane(cfg, m, e);
    StepKeepsLedger(cfg, m, e);
    forall k | 0 <= k < |earlier| ensures Durable(Prompted(cfg, m, p, review, saved).0, earlier[k]) {
      DurableStays(cfg, m, e, earlier[k]);
    }
  }

  lemma PromptAnswers(cfg: Config, m: Machine, p: PromptRequest, review: Review, saved: bool, earlier: seq<PromptRequest>)
    requires Sane(m) && LedgerOk(cfg, m) && p.operation.Some? && AllDurable(m, earlier)
    ensures var (t, o) := Prompted(cfg, m, p, review, saved);
      o.Accepted? || o.Repeated? ==> AllDurable(t, earlier + [p])
  {
    hide Sane, LedgerOk, Durable, Prompted;
    var (t, o) := Prompted(cfg, m, p, review, saved);
    if o.Accepted? || o.Repeated? {
      AnsweredIsDurable(cfg, m, p, review, saved);
      PromptKeepsDurable(cfg, m, p, review, saved, earlier);
    }
  }
}
