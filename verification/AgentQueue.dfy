/**
 * Accepting prompts (packages/daemon/src/thread-agent.ts, `prompt`, `enqueue`, `enqueueComment`): a
 * batch is frozen into the queue all or nothing, once per operation ID.
 */
module AgentQueue {
  import opened Common
  import opened Text
  import opened AgentTurn
  import opened Transcript
  import opened Receipts

  const QUEUE_LIMIT := 128

  /** `asks` is the source's pending-input test: a comment that is neither an agent note nor authored. */
  datatype Annotation = Annotation(id: Id, body: string, quote: string, asks: bool)

  /** The Thread under review, as far as prompting reads it. */
  datatype Review = Review(pending: bool, annotations: seq<Annotation>)

  datatype QueueInput = QueueInput(prompt: string, quote: string, comment: Option<Id>, context: Option<string>)

  function ActiveCount(subs: seq<Submission>): nat {
    if subs == [] then 0
    else (if subs[0].status == Queued || subs[0].status == Running then 1 else 0) + ActiveCount(subs[1..])
  }

  predicate Fits(s: AgentState, input: QueueInput) {
    && |s.messages| + ActiveCount(s.submissions) + 2 <= QUEUE_LIMIT
    && InputFits(s.messages, input.prompt, input.quote)
  }

  function NewSubmission(id: Id, input: QueueInput): Submission {
    Submission(id, input.comment.GetOr(id), input.prompt, input.quote, input.context,
               None, None, StepSubmission(Draft, Submit, true), false)
  }

  function Enqueue(s: AgentState, input: QueueInput, id: Id): Result<AgentState, Refusal> {
    if !Fits(s, input) then Err(LimitReached)
    else Ok(s.(submissions := s.submissions + [NewSubmission(id, input)],
               messages := AppendInput(s.messages, OfInput(id), id, input.prompt)))
  }

  function IndexOfAnnotation(notes: seq<Annotation>, id: Id): (n: nat)
    ensures n <= |notes|
    ensures n < |notes| ==> notes[n].id == id
    ensures forall i :: 0 <= i < n ==> notes[i].id != id
  {
    FirstWhere(notes, (a: Annotation) => a.id == id)
  }

  function IndexOfComment(comments: seq<Comment>, id: Id): (n: nat)
    ensures n <= |comments|
    ensures n < |comments| ==> comments[n].id == id
    ensures forall i :: 0 <= i < n ==> comments[i].id != id
  {
    FirstWhere(comments, (c: Comment) => c.id == id)
  }

  predicate HasComment(subs: seq<Submission>, comment: Id) {
    exists i :: 0 <= i < |subs| && subs[i].comment == comment
  }

  function MarkSent(s: AgentState, comment: Id): AgentState {
    var n := IndexOfComment(s.comments, comment);
    if n < |s.comments| then s.(comments := s.comments[n := s.comments[n].(sent := true)]) else s
  }

  /** The saved note, or the discussion snapshot a shared request froze. */
  function CommentInput(s: AgentState, review: Review, comment: Id, frozen: Option<PromptRequest>): Option<QueueInput> {
    var a := IndexOfAnnotation(review.annotations, comment);
    var c := IndexOfComment(s.comments, comment);
    if a == |review.annotations| && c == |s.comments| then None
    else
      var body := if a < |review.annotations| then review.annotations[a].body else s.comments[c].body;
      var quote := if a < |review.annotations| then review.annotations[a].quote else s.comments[c].quote;
      if frozen.Some? then
        Some(QueueInput(frozen.value.text, frozen.value.context.GetOr(quote), Some(comment), frozen.value.discussion))
      else Some(QueueInput(body, quote, Some(comment), None))
  }

  function EnqueueComment(s: AgentState, review: Review, comment: Id, frozen: Option<PromptRequest>, id: Id)
    : Result<AgentState, Refusal>
  {
    var input := CommentInput(s, review, comment, frozen);
    if input.None? || HasComment(s.submissions, comment) then Err(CommentUnavailable)
    else
      match Enqueue(s, input.value, id)
      case Err(e) => Err(e)
      case Ok(t) => Ok(MarkSent(t, comment))
  }

  /** Every listed comment in turn, each under a fresh UUID. */
  function EnqueueComments(s: AgentState, review: Review, comments: seq<Id>, next: nat)
    : Result<AgentState, Refusal>
    decreases |comments|
  {
    if comments == [] then Ok(s)
    else
      match EnqueueComment(s, review, comments[0], None, Uuid(next))
      case Err(e) => Err(e)
      case Ok(t) => EnqueueComments(t, review, comments[1..], next + 1)
  }

  function AskingAnnotations(notes: seq<Annotation>, subs: seq<Submission>): seq<Id> {
    if notes == [] then []
    else
      (if notes[0].asks && !HasComment(subs, notes[0].id) then [notes[0].id] else [])
      + AskingAnnotations(notes[1..], subs)
  }

  function UnsentComments(comments: seq<Comment>): seq<Id> {
    if comments == [] then []
    else (if comments[0].sent then [] else [comments[0].id]) + UnsentComments(comments[1..])
  }

  /** A shared request mirrors its operation ID; everything else gets a fresh UUID. */
  function InputId(p: PromptRequest, next: nat): Id {
    if p.inputOnly && p.operation.Some? then Key(p.operation.value) else Uuid(next)
  }

  /** The comments a batch takes from the agent's own discussion, once the annotations are in. */
  function OwnComments(t: AgentState, p: PromptRequest): seq<Id> {
    if p.inputOnly then [] else UnsentComments(t.comments)
  }

  function BatchAnnotations(s: AgentState, p: PromptRequest, review: Review): seq<Id> {
    if p.inputOnly then [] else AskingAnnotations(review.annotations, s.submissions)
  }

  function EnqueuePlain(u: AgentState, p: PromptRequest, n: nat): Result<AgentState, Refusal> {
    if Trim(p.text) == "" then Ok(u)
    else Enqueue(u, QueueInput(Trim(p.text), p.context.GetOr(""), None, None), InputId(p, n))
  }

  /** Pending annotations, then unsent comments, then the typed text. */
  function EnqueueBatch(s: AgentState, p: PromptRequest, review: Review, next: nat): Result<AgentState, Refusal> {
    var notes := BatchAnnotations(s, p, review);
    match EnqueueComments(s, review, notes, next)
    case Err(e) => Err(e)
    case Ok(t) =>
      var own := OwnComments(t, p);
      match EnqueueComments(t, review, own, next + |notes|)
      case Err(e) => Err(e)
      case Ok(u) => EnqueuePlain(u, p, next + |notes| + |own|)
  }

  function RetrySubmission(s: AgentState, id: Id, attempt: Id): Result<AgentState, Refusal> {
    var n := IndexOfSubmission(s.submissions, id);
    if n == |s.submissions| || s.submissions[n].status != Failed then Err(RetryNotFailed)
    else
      var q := s.submissions[n];
      Ok(s.(submissions := s.submissions[n := q.(cancelled := false, attempt := Some(attempt),
                                                 status := StepSubmission(q.status, Retry, true))]))
  }

  function IdsOf(subs: seq<Submission>): (ids: seq<Id>)
    ensures |ids| == |subs|
    ensures forall i :: 0 <= i < |subs| ==> ids[i] == subs[i].id
  {
    seq(|subs|, i requires 0 <= i < |subs| => subs[i].id)
  }

  /** Identities of submissions that `before` does not have. */
  function NewIds(before: seq<Submission>, subs: seq<Submission>): seq<Id> {
    if subs == [] then []
    else
      (if IndexOfSubmission(before, subs[0].id) < |before| then [] else [subs[0].id])
      + NewIds(before, subs[1..])
  }

  function Record(s: AgentState, before: AgentState, p: PromptRequest): Result<AgentState, Refusal> {
    if p.operation.None? then Ok(s)
    else
      var batch := if p.retry.Some? then [p.retry.value] else NewIds(before.submissions, s.submissions);
      if batch == [] then Err(OperationWithoutInput)
      else Ok(s.(receipts := s.receipts + [Receipt(p.operation.value, FingerprintOf(p), batch, None)]))
  }

  /** One comment, one retry, or the batch. */
  function EnqueueRequest(s: AgentState, p: PromptRequest, review: Review, next: nat): Result<AgentState, Refusal> {
    if p.comment.Some? then
      EnqueueComment(s, review, p.comment.value, if p.discussion.Some? then Some(p) else None, InputId(p, next))
    else if p.retry.Some? then RetrySubmission(s, p.retry.value, Uuid(next))
    else EnqueueBatch(s, p, review, next)
  }

  function Bound(s: AgentState, fallback: string): AgentState {
    if s.harness.Some? then s else s.(harness := Some(Harness(fallback, None)))
  }

  /** The body of the `try`: everything a rollback undoes. Mints UUIDs from `next` upwards. */
  function Accept(s: AgentState, p: PromptRequest, review: Review, next: nat, fallback: string)
    : Result<AgentState, Refusal>
  {
    match EnqueueRequest(Bound(s, fallback), p, review, next)
    case Err(e) => Err(e)
    case Ok(t) => Record(t, s, p)
  }

  /** No more UUIDs than this can be minted while accepting one prompt. */
  function Minted(s: AgentState, review: Review): nat {
    |review.annotations| + |s.comments| + 1
  }
}
