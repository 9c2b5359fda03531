/**
 * Operation receipts (packages/daemon/src/operation-receipts.ts) over the state they live in: the
 * durable record of one Thread agent (packages/schema/src/thread-agent.ts).
 */
module Receipts {
  import opened Common
  import opened AgentTurn
  import opened Transcript

  const RECEIPT_LIMIT := 128

  datatype MessageId =
    | OfInput(submission: Id)
    | OfAttempt(attempt: Id, name: string)
    | OfTurn(turn: Id)
    | OfName(name: string)

  datatype Phase = PhaseIdle | PhaseRunning | PhasePermission(request: string) | PhaseFailed

  /** A submission freezes its input; `harnessPrompt` freezes what the harness was told. */
  datatype Submission = Submission(
    id: Id, comment: Id, prompt: string, quote: string, context: Option<string>,
    harnessPrompt: Option<string>, attempt: Option<Id>, status: Status, cancelled: bool)

  datatype Outcome = OutcomeCompleted | OutcomeFailed | OutcomeCancelled

  /** The hash of the normalized payload, taken to be collision free: the payload itself. */
  datatype Fingerprint = Fingerprint(
    text: string, context: Option<string>, retry: Option<Id>, comment: Option<Id>,
    inputOnly: bool, discussion: Option<string>)

  datatype Receipt = Receipt(
    operation: string, fingerprint: Fingerprint, batch: seq<Id>, outcome: Option<Outcome>)

  datatype Comment = Comment(id: Id, body: string, quote: string, sent: bool)

  datatype Harness = Harness(id: string, session: Option<string>)

  datatype Stage = HandoffQueued | HandoffSummarizing | HandoffPrepared(text: string)

  datatype Handoff = Handoff(
    target: string, requested: Option<string>, operation: Id, source: Option<Harness>,
    stage: Stage, prompt: Option<string>)

  datatype AgentState = AgentState(
    harness: Option<Harness>, phase: Phase, messages: seq<Message<MessageId>>,
    comments: seq<Comment>, submissions: seq<Submission>, receipts: seq<Receipt>,
    continuation: Option<string>, handoff: Option<Handoff>)

  const INITIAL := AgentState(None, PhaseIdle, [], [], [], [], None, None)

  datatype PromptRequest = PromptRequest(
    operation: Option<string>, text: string, context: Option<string>, retry: Option<Id>,
    comment: Option<Id>, inputOnly: bool, discussion: Option<string>)

  datatype Refusal =
    | OperationConflict | OperationCapacity | ReviewResolved | HarnessUnavailable
    | CommentUnavailable | RetryNotFailed | LimitReached | OperationWithoutInput | SaveFailed
    | TargetUnavailable

  function FingerprintOf(p: PromptRequest): Fingerprint {
    Fingerprint(p.text, p.context, p.retry, p.comment, p.inputOnly, p.discussion)
  }

  /** Index of the first submission with this identity, or the length. */
  function IndexOfSubmission(subs: seq<Submission>, id: Id): (n: nat)
    ensures n <= |subs|
    ensures n < |subs| ==> subs[n].id == id
    ensures forall i :: 0 <= i < n ==> subs[i].id != id
  {
    FirstWhere(subs, (q: Submission) => q.id == id)
  }

  function IndexOfReceipt(receipts: seq<Receipt>, operation: string): (n: nat)
    ensures n <= |receipts|
    ensures n < |receipts| ==> receipts[n].operation == operation
    ensures forall i :: 0 <= i < n ==> receipts[i].operation != operation
  {
    FirstWhere(receipts, (r: Receipt) => r.operation == operation)
  }

  /** findOperationReceipt: the receipt of a repeat, nothing for a new operation, or a refusal. */
  function FindReceipt(receipts: seq<Receipt>, p: PromptRequest): Result<Option<Receipt>, Refusal> {
    if p.operation.None? then Ok(None)
    else
      var n := IndexOfReceipt(receipts, p.operation.value);
      if n < |receipts| then
        if receipts[n].fingerprint == FingerprintOf(p) then Ok(Some(receipts[n]))
        else Err(OperationConflict)
      else if |receipts| >= RECEIPT_LIMIT then Err(OperationCapacity)
      else Ok(None)
  }

  predicate Unsettled(subs: seq<Submission>, id: Id) {
    var n := IndexOfSubmission(subs, id);
    n == |subs| || subs[n].status == Queued || subs[n].status == Running
  }

  predicate HasMember(subs: seq<Submission>, batch: seq<Id>, p: Submission -> bool) {
    exists id :: id in batch && IndexOfSubmission(subs, id) < |subs| && p(subs[IndexOfSubmission(subs, id)])
  }

  predicate Pending(subs: seq<Submission>, batch: seq<Id>) {
    exists id :: id in batch && Unsettled(subs, id)
  }

  function OutcomeOf(subs: seq<Submission>, batch: seq<Id>): Outcome {
    if HasMember(subs, batch, (q: Submission) => q.cancelled) then OutcomeCancelled
    else if HasMember(subs, batch, (q: Submission) => q.status == Failed) then OutcomeFailed
    else OutcomeCompleted
  }

  function SettleReceipt(subs: seq<Submission>, r: Receipt): Receipt {
    if r.outcome.Some? || r.batch == [] || Pending(subs, r.batch) then r
    else r.(outcome := Some(OutcomeOf(subs, r.batch)))
  }

  function SettleAll(subs: seq<Submission>, receipts: seq<Receipt>): (out: seq<Receipt>)
    ensures |out| == |receipts|
  {
    seq(|receipts|, i requires 0 <= i < |receipts| => SettleReceipt(subs, receipts[i]))
  }

  /** settlePromptOperations */
  function Settle(s: AgentState): AgentState {
    s.(receipts := SettleAll(s.submissions, s.receipts))
  }

  /** The receipts' acceptance facts, which nothing may ever change. */
  ghost predicate SameBatches(a: seq<Receipt>, b: seq<Receipt>) {
    && |a| == |b|
    && forall i :: 0 <= i < |a| ==>
      && a[i].operation == b[i].operation
      && a[i].fingerprint == b[i].fingerprint
      && a[i].batch == b[i].batch
  }

  /** Every receipt of `a` is still in `b`, with its batch and with its outcome if it had one. */
  ghost predicate Extends(a: seq<Receipt>, b: seq<Receipt>) {
    && |a| <= |b|
    && forall i :: 0 <= i < |a| ==>
      && a[i].operation == b[i].operation
      && a[i].fingerprint == b[i].fingerprint
      && a[i].batch == b[i].batch
      && (a[i].outcome.Some? ==> a[i].outcome == b[i].outcome)
  }

  lemma ExtendsIsTransitive(a: seq<Receipt>, b: seq<Receipt>, c: seq<Receipt>)
    requires Extends(a, b) && Extends(b, c)
    ensures Extends(a, c)
  {
  }

  lemma SettleExtends(subs: seq<Submission>, receipts: seq<Receipt>)
    ensures Extends(receipts, SettleAll(subs, receipts))
    ensures SameBatches(receipts, SettleAll(subs, receipts))
  {
  }

  /** A settled outcome says exactly what the batch came to: cancelled wins over failed, failed over
      completed, and nothing is decided while a member is missing, queued or running. */
  lemma OutcomeMeaning(subs: seq<Submission>, r: Receipt)
    requires r.outcome.None? && r.batch != []
    ensures var o := SettleReceipt(subs, r).outcome;
      && (o.None? <==> exists id :: id in r.batch && Unsettled(subs, id))
      && (o == Some(OutcomeCompleted) <==>
          forall id :: id in r.batch ==>
            var n := IndexOfSubmission(subs, id);
            n < |subs| && subs[n].status in {Completed, Draft} && !subs[n].cancelled)
      && (o == Some(OutcomeCancelled) <==>
          && !Pending(subs, r.batch)
          && exists id :: id in r.batch && IndexOfSubmission(subs, id) < |subs| && subs[IndexOfSubmission(subs, id)].cancelled)
  {
  }
}
