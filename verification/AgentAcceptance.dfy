/**
 * What accepting a prompt guarantees: the queue only grows at its tail, one user message per new
 * submission, identities stay distinct, and one receipt names exactly the batch.
 */
module AgentAcceptance {
  import opened Common
  import opened Text
  import opened AgentTurn
  import opened Transcript
  import opened Receipts
  import opened AgentQueue

  /** The user messages that mirror accepted submissions. */
  function InputMessages(subs: seq<Submission>): (ms: seq<Message<MessageId>>)
    ensures |ms| == |subs|
  {
    seq(|subs|, i requires 0 <= i < |subs| =>
      Message(OfInput(subs[i].id), subs[i].id, true, subs[i].prompt, true))
  }

  /** `t` is `s` with `added` at the tail of the queue, everything durable besides unchanged. */
  ghost predicate Grown(s: AgentState, t: AgentState, added: seq<Submission>) {
    && t.submissions == s.submissions + added
    && t.messages == s.messages + InputMessages(added)
    && t.receipts == s.receipts
    && t.phase == s.phase && t.harness == s.harness
    && t.continuation == s.continuation && t.handoff == s.handoff
    && IdsOfComments(t.comments) == IdsOfComments(s.comments)
  }

  function IdsOfComments(comments: seq<Comment>): (ids: seq<Id>)
    ensures |ids| == |comments|
  {
    seq(|comments|, i requires 0 <= i < |comments| => comments[i].id)
  }

  /** Freshly accepted: queued, never sent to a harness, never cancelled. */
  predicate IsNew(q: Submission) {
    q.status == Queued && q.harnessPrompt.None? && q.attempt.None? && !q.cancelled
  }

  lemma GrownTwice(s: AgentState, t: AgentState, u: AgentState, a: seq<Submission>, b: seq<Submission>)
    requires Grown(s, t, a) && Grown(t, u, b)
    ensures Grown(s, u, a + b)
  {
    assert InputMessages(a + b) == InputMessages(a) + InputMessages(b);
    assert s.submissions + a + b == s.submissions + (a + b);
    assert s.messages + InputMessages(a) + InputMessages(b) == s.messages + (InputMessages(a) + InputMessages(b));
  }

  lemma EnqueueGrows(s: AgentState, input: QueueInput, id: Id)
    requires Enqueue(s, input, id).Ok?
    ensures Grown(s, Enqueue(s, input, id).value, [NewSubmission(id, input)])
    ensures IsNew(NewSubmission(id, input))
  {
    assert InputMessages([NewSubmission(id, input)]) == [Message(OfInput(id), id, true, input.prompt, true)];
  }

  lemma EnqueueCommentGrows(s: AgentState, review: Review, comment: Id, frozen: Option<PromptRequest>, id: Id)
    returns (q: Submission)
    requires EnqueueComment(s, review, comment, frozen, id).Ok?
    ensures Grown(s, EnqueueComment(s, review, comment, frozen, id).value, [q])
    ensures IsNew(q) && q.id == id && q.comment == comment && !HasComment(s.submissions, comment)
    ensures Known(review, s, comment)
  {
    var input := CommentInput(s, review, comment, frozen).value;
    q := NewSubmission(id, input);
    EnqueueGrows(s, input, id);
  }

  /** A comment the review or the agent's own discussion knows. */
  predicate Known(review: Review, s: AgentState, comment: Id) {
    || IndexOfAnnotation(review.annotations, comment) < |review.annotations|
    || IndexOfComment(s.comments, comment) < |s.comments|
  }

  lemma KnownTransfers(review: Review, s: AgentState, t: AgentState, comment: Id)
    requires IdsOfComments(s.comments) == IdsOfComments(t.comments)
    ensures Known(review, s, comment) == Known(review, t, comment)
  {
    SameCommentIndex(s.comments, t.comments, comment);
  }

  lemma SameCommentIndex(a: seq<Comment>, b: seq<Comment>, comment: Id)
    requires IdsOfComments(a) == IdsOfComments(b)
    ensures IndexOfComment(a, comment) == IndexOfComment(b, comment)
  {
    assert |a| == |IdsOfComments(a)| == |b|;
    assert forall i :: 0 <= i < |a| ==> a[i].id == IdsOfComments(a)[i] == IdsOfComments(b)[i] == b[i].id;
  }

  /** New submissions carry consecutive UUIDs and exactly the listed comments, in order. */
  ghost predicate Numbered(added: seq<Submission>, comments: seq<Id>, next: nat) {
    && |added| == |comments|
    && forall i :: 0 <= i < |added| ==> IsNew(added[i]) && added[i].id == Uuid(next + i) && added[i].comment == comments[i]
  }

  /** Comments that can be found and that no submission carries yet. */
  ghost predicate AllFresh(s: AgentState, review: Review, comments: seq<Id>) {
    forall i :: 0 <= i < |comments| ==> !HasComment(s.submissions, comments[i]) && Known(review, s, comments[i])
  }

  lemma FreshEarlier(s: AgentState, t: AgentState, review: Review, added: seq<Submission>, more: seq<Id>)
    requires Grown(s, t, added) && AllFresh(t, review, more)
    ensures AllFresh(s, review, more)
    ensures forall j, i :: 0 <= j < |added| && 0 <= i < |more| ==> added[j].comment != more[i]
  {
    forall i | 0 <= i < |more| ensures !HasComment(s.submissions, more[i]) && Known(review, s, more[i]) {
      assert forall j :: 0 <= j < |s.submissions| ==> t.submissions[j] == s.submissions[j];
      KnownTransfers(review, s, t, more[i]);
    }
    forall j, i | 0 <= j < |added| && 0 <= i < |more| ensures added[j].comment != more[i] {
      assert t.submissions[|s.submissions| + j] == added[j];
      assert HasComment(t.submissions, added[j].comment);
    }
  }

  lemma NumberedTwice(first: seq<Submission>, second: seq<Submission>, notes: seq<Id>, more: seq<Id>, next: nat)
    requires Numbered(first, notes, next) && Numbered(second, more, next + |notes|)
    ensures Numbered(first + second, notes + more, next)
  {
  }

  /** One round of comments: what it added to the queue and for which comments. */
  ghost predicate Round(s: AgentState, t: AgentState, review: Review, comments: seq<Id>, next: nat, added: seq<Submission>) {
    && Grown(s, t, added)
    && Numbered(added, comments, next)
    && AllFresh(s, review, comments)
    && Distinct(comments)
  }

  /** Two rounds are one round of the concatenation. */
  lemma RoundTwice(s: AgentState, t: AgentState, u: AgentState, review: Review, notes: seq<Id>, more: seq<Id>,
                   next: nat, first: seq<Submission>, second: seq<Submission>)
    requires Round(s, t, review, notes, next, first)
    requires Round(t, u, review, more, next + |notes|, second)
    ensures Round(s, u, review, notes + more, next, first + second)
  {
    GrownTwice(s, t, u, first, second);
    NumberedTwice(first, second, notes, more, next);
    FreshEarlier(s, t, review, first, more);
    forall i, j | 0 <= i < j < |notes + more| ensures (notes + more)[i] != (notes + more)[j] {
      if i < |notes| <= j { assert first[i].comment == notes[i]; }
    }
  }

  lemma {:induction false} EnqueueCommentsGrows(s: AgentState, review: Review, comments: seq<Id>, next: nat)
    returns (added: seq<Submission>)
    requires EnqueueComments(s, review, comments, next).Ok?
    ensures Round(s, EnqueueComments(s, review, comments, next).value, review, comments, next, added)
    decreases |comments|
  {
    if comments == [] {
      added := [];
      assert InputMessages([]) == [];
    } else {
      var one := EnqueueComment(s, review, comments[0], None, Uuid(next));
      var t := one.value;
      var q := EnqueueCommentGrows(s, review, comments[0], None, Uuid(next));
      assert Round(s, t, review, [comments[0]], next, [q]);
      var rest := EnqueueCommentsGrows(t, review, comments[1..], next + 1);
      added := [q] + rest;
      RoundTwice(s, t, EnqueueComments(t, review, comments[1..], next + 1).value, review, [comments[0]], comments[1..], next, [q], rest);
      assert [comments[0]] + comments[1..] == comments;
    }
  }

  /** Everything a prompt can enqueue: a numbered batch of comments, then at most one plain input. */
  lemma EnqueueBatchGrows(s: AgentState, p: PromptRequest, review: Review, next: nat)
    returns (added: seq<Submission>, comments: seq<Id>)
    requires EnqueueBatch(s, p, review, next).Ok?
    ensures Grown(s, EnqueueBatch(s, p, review, next).value, added)
    ensures |comments| <= |added| <= |comments| + 1
    ensures Numbered(added[..|comments|], comments, next)
    ensures AllFresh(s, review, comments)
    ensures Distinct(comments) && (p.inputOnly ==> comments == [])
    ensures |comments| <= |review.annotations| + |s.comments|
    ensures |added| == |comments| + 1 <==> Trim(p.text) != ""
    ensures |added| == |comments| + 1 ==>
      var q := added[|comments|];
      IsNew(q) && q.id == q.comment == InputId(p, next + |comments|) && q.prompt == Trim(p.text)
  {
    hide EnqueueComments, EnqueuePlain;
    var notes := BatchAnnotations(s, p, review);
    var t := EnqueueComments(s, review, notes, next).value;
    var own := OwnComments(t, p);
    var u := EnqueueComments(t, review, own, next + |notes|).value;
    var first := EnqueueCommentsGrows(s, review, notes, next);
    var second := EnqueueCommentsGrows(t, review, own, next + |notes|);
    RoundTwice(s, t, u, review, notes, own, next, first, second);
    comments := notes + own;
    AskingIsShort(review.annotations, s.submissions);
    UnsentIsShort(t.comments);
    assert |t.comments| == |IdsOfComments(t.comments)| == |IdsOfComments(s.comments)| == |s.comments|;
    added := PlainInputGrows(s, u, p, next + |notes| + |own|, first + second);
  }

  lemma PlainInputGrows(s: AgentState, u: AgentState, p: PromptRequest, n: nat, before: seq<Submission>)
    returns (added: seq<Submission>)
    requires Grown(s, u, before)
    requires EnqueuePlain(u, p, n).Ok?
    ensures Grown(s, EnqueuePlain(u, p, n).value, added)
    ensures |before| <= |added| <= |before| + 1 && added[..|before|] == before
    ensures |added| == |before| + 1 <==> Trim(p.text) != ""
    ensures |added| == |before| + 1 ==>
      var q := added[|before|];
      IsNew(q) && q.id == q.comment == InputId(p, n) && q.prompt == Trim(p.text)
  {
    added := before;
    if Trim(p.text) != "" {
      var input := QueueInput(Trim(p.text), p.context.GetOr(""), None, None);
      var q := NewSubmission(InputId(p, n), input);
      EnqueueGrows(u, input, InputId(p, n));
      GrownTwice(s, u, Enqueue(u, input, InputId(p, n)).value, before, [q]);
      added := before + [q];
    }
  }

  // ---- the shape of every accepted prompt ----

  /** An identity the daemon has already used: a minted UUID, or a receipt's operation ID. */
  predicate KnownId(receipts: seq<Receipt>, next: nat, id: Id) {
    match id
    case Uuid(n) => n < next
    case Key(name) => IndexOfReceipt(receipts, name) < |receipts|
  }

  /** Identities given to one accepted prompt: fresh UUIDs, or its own operation ID. */
  ghost predicate Minting(p: PromptRequest, next: nat, last: nat, added: seq<Submission>) {
    && (forall i :: 0 <= i < |added| ==>
          || (added[i].id.Uuid? && next <= added[i].id.serial < last)
          || (p.operation.Some? && added[i].id == Key(p.operation.value)))
    && (forall i, j :: 0 <= i < j < |added| ==> added[i].id != added[j].id)
    && (forall i :: 0 <= i < |added| ==> IsNew(added[i]))
  }

  lemma MintingIsFresh(s: AgentState, p: PromptRequest, next: nat, last: nat, added: seq<Submission>)
    requires Minting(p, next, last, added) && FindReceipt(s.receipts, p) == Ok(None)
    ensures forall i :: 0 <= i < |added| ==> !KnownId(s.receipts, next, added[i].id)
  {
  }

  lemma AskingIsShort(notes: seq<Annotation>, subs: seq<Submission>)
    ensures |AskingAnnotations(notes, subs)| <= |notes|
  {
  }

  lemma UnsentIsShort(comments: seq<Comment>)
    ensures |UnsentComments(comments)| <= |comments|
  {
  }

  predicate IsRetry(p: PromptRequest) {
    p.comment.None? && p.retry.Some?
  }

  /** The queue part of an accepted prompt that is not a retry. */
  lemma QueuedShape(s: AgentState, p: PromptRequest, review: Review, next: nat) returns (added: seq<Submission>)
    requires !IsRetry(p)
    requires EnqueueRequest(s, p, review, next).Ok?
    ensures Grown(s, EnqueueRequest(s, p, review, next).value, added)
    ensures Minting(p, next, next + Minted(s, review), added)
  {
    if p.comment.Some? {
      var frozen := if p.discussion.Some? then Some(p) else None;
      var q := EnqueueCommentGrows(s, review, p.comment.value, frozen, InputId(p, next));
      added := [q];
    } else {
      var comments;
      added, comments := EnqueueBatchGrows(s, p, review, next);
      BatchIsShort(s, p, review, next, comments, added);
    }
  }

  lemma BatchIsShort(s: AgentState, p: PromptRequest, review: Review, next: nat, comments: seq<Id>, added: seq<Submission>)
    requires |comments| <= |added| <= |comments| + 1 && Numbered(added[..|comments|], comments, next)
    requires |comments| <= |review.annotations| + |s.comments|
    requires p.inputOnly ==> comments == []
    requires |added| == |comments| + 1 ==> IsNew(added[|comments|]) && added[|comments|].id == InputId(p, next + |comments|)
    ensures Minting(p, next, next + Minted(s, review), added)
  {
    forall i | 0 <= i < |comments|
      ensures IsNew(added[i]) && added[i].id == Uuid(next + i)
    {
      assert added[i] == added[..|comments|][i];
    }
    forall i, j | 0 <= i < j < |added| ensures added[i].id != added[j].id {
      assert added[i].id == Uuid(next + i);
    }
  }

  lemma {:induction false} NewIdsOfKept(before: seq<Submission>, kept: seq<Submission>, added: seq<Submission>)
    requires forall i :: 0 <= i < |kept| ==> IndexOfSubmission(before, kept[i].id) < |before|
    ensures NewIds(before, kept + added) == NewIds(before, added)
  {
    if kept == [] {
      assert kept + added == added;
    } else {
      assert (kept + added)[0] == kept[0] && (kept + added)[1..] == kept[1..] + added;
      NewIdsOfKept(before, kept[1..], added);
    }
  }

  lemma {:induction false} NewIdsOfAdded(before: seq<Submission>, added: seq<Submission>)
    requires forall i :: 0 <= i < |added| ==> IndexOfSubmission(before, added[i].id) == |before|
    ensures NewIds(before, added) == IdsOf(added)
  {
    if added != [] {
      NewIdsOfAdded(before, added[1..]);
      assert IdsOf(added) == [added[0].id] + IdsOf(added[1..]);
    }
  }
}
