/**
 * What a caller can check before prompting (packages/daemon/src/thread-agent.ts, `prompt`): the guards of
 * every branch that repeats, refuses, rolls back or accepts, in terms of the request and the current record.
 */
module AgentGuards {
  import opened Common
  import opened Text
  import opened Utf8
  import opened AgentTurn
  import opened Transcript
  import opened Receipts
  import opened AgentQueue
  import opened AgentAcceptance
  import opened AgentMachine
  import opened AgentSafety

  // ---- room for a list of inputs ----

  function TotalBytes(inputs: seq<QueueInput>): nat {
    if inputs == [] then 0 else ByteLength(inputs[0].prompt) + TotalBytes(inputs[1..])
  }

  predicate Short(inputs: seq<QueueInput>) {
    forall i :: 0 <= i < |inputs| ==>
      ByteLength(inputs[i].prompt) <= MESSAGE_LIMIT && ByteLength(inputs[i].quote) <= MESSAGE_LIMIT
  }

  /** The 128-entry limit and the byte limits, for a whole batch at once. */
  predicate Room(s: AgentState, inputs: seq<QueueInput>) {
    || inputs == []
    || (&& |s.messages| + ActiveCount(s.submissions) + 2 * |inputs| <= QUEUE_LIMIT
        && Short(inputs)
        && Used(s.messages) + TotalBytes(inputs) <= TRANSCRIPT_LIMIT)
  }

  /** `t` is `s` with these inputs queued. */
  ghost predicate Took(s: AgentState, t: AgentState, inputs: seq<QueueInput>) {
    && |t.messages| == |s.messages| + |inputs|
    && ActiveCount(t.submissions) == ActiveCount(s.submissions) + |inputs|
    && Used(t.messages) == Used(s.messages) + TotalBytes(inputs)
  }

  lemma {:induction false} TotalOfTwo(a: seq<QueueInput>, b: seq<QueueInput>)
    ensures TotalBytes(a + b) == TotalBytes(a) + TotalBytes(b)
  {
    if a == [] {
      assert a + b == b;
    } else {
      assert (a + b)[1..] == a[1..] + b;
      TotalOfTwo(a[1..], b);
    }
  }

  /** There is room for two batches exactly when there is room for the first and then for the second. */
  lemma RoomTwice(s: AgentState, t: AgentState, a: seq<QueueInput>, b: seq<QueueInput>)
    requires Took(s, t, a)
    ensures Room(s, a + b) <==> Room(s, a) && Room(t, b)
  {
    TotalOfTwo(a, b);
    if a == [] {
      assert a + b == b;
    } else if b == [] {
      assert a + b == a;
    } else {
      ShortTwice(a, b);
      hide Short, Used, ActiveCount;
    }
  }

  lemma ShortTwice(a: seq<QueueInput>, b: seq<QueueInput>)
    ensures Short(a + b) <==> Short(a) && Short(b)
  {
    assert forall i :: 0 <= i < |a| ==> (a + b)[i] == a[i];
    assert forall i :: 0 <= i < |b| ==> (a + b)[|a| + i] == b[i];
    if Short(a) && Short(b) {
      forall i | 0 <= i < |a + b|
        ensures ByteLength((a + b)[i].prompt) <= MESSAGE_LIMIT && ByteLength((a + b)[i].quote) <= MESSAGE_LIMIT
      {
        if i < |a| { assert (a + b)[i] == a[i]; } else { assert (a + b)[i] == b[i - |a|]; }
      }
    }
  }

  lemma TookTwice(s: AgentState, t: AgentState, u: AgentState, a: seq<QueueInput>, b: seq<QueueInput>)
    requires Took(s, t, a) && Took(t, u, b)
    ensures Took(s, u, a + b)
  {
    TotalOfTwo(a, b);
  }

  lemma {:induction false} ActiveOfTwo(a: seq<Submission>, b: seq<Submission>)
    ensures ActiveCount(a + b) == ActiveCount(a) + ActiveCount(b)
  {
    if a == [] {
      assert a + b == b;
    } else {
      assert (a + b)[1..] == a[1..] + b;
      ActiveOfTwo(a[1..], b);
    }
  }

  /** One input is queued if and only if there is room for it. */
  lemma EnqueueExactly(s: AgentState, input: QueueInput, id: Id)
    ensures Enqueue(s, input, id).Ok? <==> Room(s, [input])
    ensures Enqueue(s, input, id).Ok? ==> Took(s, Enqueue(s, input, id).value, [input])
  {
    assert [input][1..] == [] && TotalBytes([input]) == ByteLength(input.prompt);
    if Enqueue(s, input, id).Ok? {
      var q := NewSubmission(id, input);
      ActiveOfTwo(s.submissions, [q]);
      assert [q][1..] == [];
      assert q.status == Queued && ActiveCount([q]) == 1;
      var m := Message(OfInput(id), id, true, input.prompt, true);
      UsedConcat(s.messages, [m]);
      assert [m][1..] == [] && Used([m]) == ByteLength(input.prompt);
    }
  }

  // ---- a list of comments ----

  /** A comment that is not in the queue and that the review or the discussion knows. */
  predicate Askable(s: AgentState, review: Review, comment: Id) {
    Known(review, s, comment) && !HasComment(s.submissions, comment)
  }

  function InputOf(s: AgentState, review: Review, comment: Id, frozen: Option<PromptRequest>): QueueInput {
    CommentInput(s, review, comment, frozen).GetOr(QueueInput("", "", None, None))
  }

  lemma EnqueueCommentExactly(s: AgentState, review: Review, comment: Id, frozen: Option<PromptRequest>, id: Id)
    ensures var r := EnqueueComment(s, review, comment, frozen, id);
      && (r.Ok? <==> Askable(s, review, comment) && Room(s, [InputOf(s, review, comment, frozen)]))
      && (r.Ok? ==> Took(s, r.value, [InputOf(s, review, comment, frozen)]) && r.value.comments == MarkSent(s, comment).comments)
  {
    hide Enqueue, Room, HasComment, Took;
    assert CommentInput(s, review, comment, frozen).Some? <==> Known(review, s, comment);
    if Askable(s, review, comment) {
      var input := InputOf(s, review, comment, frozen);
      EnqueueExactly(s, input, id);
      if Enqueue(s, input, id).Ok? {
        EnqueueIs(s, input, id);
        MarkedTook(s, Enqueue(s, input, id).value, comment, [input]);
      }
    }
  }

  lemma EnqueueIs(s: AgentState, input: QueueInput, id: Id)
    requires Enqueue(s, input, id).Ok?
    ensures Enqueue(s, input, id).value.comments == s.comments
  {
  }

  lemma MarkedTook(s: AgentState, t: AgentState, comment: Id, inputs: seq<QueueInput>)
    requires Took(s, t, inputs)
    ensures Took(s, MarkSent(t, comment), inputs)
  {
  }

  function InputsOf(s: AgentState, review: Review, comments: seq<Id>): (inputs: seq<QueueInput>)
    ensures |inputs| == |comments|
  {
    seq(|comments|, i requires 0 <= i < |comments| => InputOf(s, review, comments[i], None))
  }

  /** None of them is in the queue, all are known, none is listed twice. */
  ghost predicate AllAskable(s: AgentState, review: Review, comments: seq<Id>) {
    && (forall i :: 0 <= i < |comments| ==> Askable(s, review, comments[i]))
    && Distinct(comments)
  }

  /** The discussion after these comments were marked as sent. */
  function MarkAll(s: AgentState, comments: seq<Id>): AgentState
    decreases |comments|
  {
    if comments == [] then s else MarkAll(MarkSent(s, comments[0]), comments[1..])
  }

  /** The same comments with the same contents; only the sent marks may differ. */
  ghost predicate SameBodies(a: seq<Comment>, b: seq<Comment>) {
    |a| == |b| && forall i :: 0 <= i < |a| ==> a[i].(sent := true) == b[i].(sent := true)
  }

  lemma SameBodiesIndex(a: seq<Comment>, b: seq<Comment>, id: Id)
    requires SameBodies(a, b)
    ensures IndexOfComment(a, id) == IndexOfComment(b, id)
  {
    forall i | 0 <= i < |a| ensures a[i].id == b[i].id { assert a[i].(sent := true) == b[i].(sent := true); }
  }

  lemma SameInputs(s: AgentState, t: AgentState, review: Review, comment: Id)
    requires SameBodies(s.comments, t.comments)
    ensures Known(review, s, comment) == Known(review, t, comment)
    ensures InputOf(s, review, comment, None) == InputOf(t, review, comment, None)
  {
    SameBodiesIndex(s.comments, t.comments, comment);
    var c := IndexOfComment(s.comments, comment);
    if c < |s.comments| { assert s.comments[c].(sent := true) == t.comments[c].(sent := true); }
  }

  lemma MarkKeepsBodies(s: AgentState, comment: Id)
    ensures SameBodies(s.comments, MarkSent(s, comment).comments)
  {
  }

  /** A comment joined the queue. */
  lemma OneCommentMore(s: AgentState, review: Review, comment: Id, frozen: Option<PromptRequest>, id: Id)
    requires EnqueueComment(s, review, comment, frozen, id).Ok?
    ensures var t := EnqueueComment(s, review, comment, frozen, id).value;
      && SameBodies(s.comments, t.comments)
      && forall c :: HasComment(t.submissions, c) <==> HasComment(s.submissions, c) || c == comment
  {
    var t := EnqueueComment(s, review, comment, frozen, id).value;
    var q := EnqueueCommentGrows(s, review, comment, frozen, id);
    EnqueueCommentExactly(s, review, comment, frozen, id);
    MarkKeepsBodies(s, comment);
    forall c ensures HasComment(t.submissions, c) <==> HasComment(s.submissions, c) || c == comment {
      assert t.submissions[|s.submissions|] == q;
      assert forall i :: 0 <= i < |s.submissions| ==> t.submissions[i] == s.submissions[i];
      if HasComment(s.submissions, c) {
        var i :| 0 <= i < |s.submissions| && s.submissions[i].comment == c;
        assert t.submissions[i].comment == c;
      }
    }
  }

  /** The rest of the list, after its first comment was queued. */
  lemma AskableRest(s: AgentState, t: AgentState, review: Review, comments: seq<Id>)
    requires comments != [] && Askable(s, review, comments[0]) && SameBodies(s.comments, t.comments)
    requires forall c :: HasComment(t.submissions, c) <==> HasComment(s.submissions, c) || c == comments[0]
    ensures AllAskable(s, review, comments) <==> AllAskable(t, review, comments[1..])
    ensures InputsOf(s, review, comments) == [InputOf(s, review, comments[0], None)] + InputsOf(t, review, comments[1..])
  {
    hide InputOf, Known, HasComment;
    forall c ensures Known(review, s, c) == Known(review, t, c) && InputOf(s, review, c, None) == InputOf(t, review, c, None) {
      SameInputs(s, t, review, c);
    }
    var rest := comments[1..];
    if AllAskable(s, review, comments) {
      forall i | 0 <= i < |rest| ensures Askable(t, review, rest[i]) { assert Askable(s, review, comments[i + 1]); }
      forall i, j | 0 <= i < j < |rest| ensures rest[i] != rest[j] { assert comments[i + 1] != comments[j + 1]; }
    }
    if AllAskable(t, review, rest) {
      forall i | 0 <= i < |comments| ensures Askable(s, review, comments[i]) {
        if i > 0 { assert Askable(t, review, rest[i - 1]); }
      }
      forall i, j | 0 <= i < j < |comments| ensures comments[i] != comments[j] {
        assert Askable(t, review, rest[j - 1]);
        if i > 0 { assert rest[i - 1] != rest[j - 1]; }
      }
    }
  }

  /** A list of comments is queued if and only if each can be and together they fit. */
  lemma {:induction false} EnqueueCommentsExactly(s: AgentState, review: Review, comments: seq<Id>, next: nat)
    ensures var r := EnqueueComments(s, review, comments, next);
      && (r.Ok? <==> AllAskable(s, review, comments) && Room(s, InputsOf(s, review, comments)))
      && (r.Ok? ==> Took(s, r.value, InputsOf(s, review, comments)) && r.value.comments == MarkAll(s, comments).comments
                    && SameBodies(s.comments, r.value.comments)
                    && forall c :: HasComment(r.value.submissions, c) <==> HasComment(s.submissions, c) || c in comments)
    decreases |comments|
  {
    if comments != [] {
      var input := InputOf(s, review, comments[0], None);
      EnqueueCommentExactly(s, review, comments[0], None, Uuid(next));
      if EnqueueComment(s, review, comments[0], None, Uuid(next)).Ok? {
        OneCommentMore(s, review, comments[0], None, Uuid(next));
        var t := EnqueueComment(s, review, comments[0], None, Uuid(next)).value;
        var rest := comments[1..];
        EnqueueCommentsExactly(t, review, rest, next + 1);
        AskableRest(s, t, review, comments);
        RoomTwice(s, t, [input], InputsOf(t, review, rest));
        MarkAllAgrees(t, MarkSent(s, comments[0]), rest);
        hide Room, Took, Askable, EnqueueComment, MarkSent, HasComment, InputOf;
        var r := EnqueueComments(t, review, rest, next + 1);
        assert EnqueueComments(s, review, comments, next) == r;
        if r.Ok? {
          TookTwice(s, t, r.value, [input], InputsOf(t, review, rest));
          BodiesTwice(s.comments, t.comments, r.value.comments);
          assert forall c :: c in comments <==> c == comments[0] || c in rest;
        }
      } else {
        FirstRefused(s, review, comments);
      }
    }
  }

  lemma BodiesTwice(a: seq<Comment>, b: seq<Comment>, c: seq<Comment>)
    requires SameBodies(a, b) && SameBodies(b, c)
    ensures SameBodies(a, c)
  {
    forall i | 0 <= i < |a| ensures a[i].(sent := true) == c[i].(sent := true) {
      assert a[i].(sent := true) == b[i].(sent := true) == c[i].(sent := true);
    }
  }

  lemma FirstRefused(s: AgentState, review: Review, comments: seq<Id>)
    requires comments != []
    requires !(Askable(s, review, comments[0]) && Room(s, [InputOf(s, review, comments[0], None)]))
    ensures !(AllAskable(s, review, comments) && Room(s, InputsOf(s, review, comments)))
  {
    hide Askable, InputOf;
    var inputs := InputsOf(s, review, comments);
    assert inputs == [InputOf(s, review, comments[0], None)] + inputs[1..];
    TotalOfTwo([InputOf(s, review, comments[0], None)], inputs[1..]);
  }

  lemma {:induction false} MarkAllAgrees(a: AgentState, b: AgentState, comments: seq<Id>)
    requires a.comments == b.comments
    ensures MarkAll(a, comments).comments == MarkAll(b, comments).comments
    decreases |comments|
  {
    if comments != [] { MarkAllAgrees(MarkSent(a, comments[0]), MarkSent(b, comments[0]), comments[1..]); }
  }

  // ---- the whole request ----

  function PlainInputs(p: PromptRequest): seq<QueueInput> {
    if Trim(p.text) == "" then [] else [QueueInput(Trim(p.text), p.context.GetOr(""), None, None)]
  }

  /** The comments a batch asks for: the review's open annotations, then the discussion's unsent comments. */
  function BatchComments(s: AgentState, p: PromptRequest, review: Review): seq<Id> {
    var notes := BatchAnnotations(s, p, review);
    notes + if p.inputOnly then [] else UnsentComments(MarkAll(s, notes).comments)
  }

  function BatchInputs(s: AgentState, p: PromptRequest, review: Review): seq<QueueInput> {
    InputsOf(s, review, BatchComments(s, p, review)) + PlainInputs(p)
  }

  /** The request names something to do that can be done, and it fits. */
  ghost predicate Acceptable(s: AgentState, p: PromptRequest, review: Review) {
    if p.comment.Some? then
      && Askable(s, review, p.comment.value)
      && Room(s, [InputOf(s, review, p.comment.value, if p.discussion.Some? then Some(p) else None)])
    else if p.retry.Some? then
      var n := IndexOfSubmission(s.submissions, p.retry.value);
      n < |s.submissions| && s.submissions[n].status == Failed
    else
      && AllAskable(s, review, BatchComments(s, p, review))
      && Room(s, BatchInputs(s, p, review))
      && (p.operation.Some? ==> BatchInputs(s, p, review) != [])
  }

  lemma AskableTwice(s: AgentState, t: AgentState, review: Review, a: seq<Id>, b: seq<Id>)
    requires AllAskable(s, review, a) && SameBodies(s.comments, t.comments)
    requires forall c :: HasComment(t.submissions, c) <==> HasComment(s.submissions, c) || c in a
    ensures AllAskable(s, review, a + b) <==> AllAskable(t, review, b)
    ensures InputsOf(s, review, a + b) == InputsOf(s, review, a) + InputsOf(t, review, b)
  {
    hide InputOf, Known, HasComment;
    forall c ensures Known(review, s, c) == Known(review, t, c) && InputOf(s, review, c, None) == InputOf(t, review, c, None) {
      SameInputs(s, t, review, c);
    }
    var all := a + b;
    if AllAskable(s, review, all) {
      forall i | 0 <= i < |b| ensures Askable(t, review, b[i]) {
        assert Askable(s, review, all[|a| + i]);
        forall j | 0 <= j < |a| ensures a[j] != b[i] { assert all[j] != all[|a| + i]; }
      }
      forall i, j | 0 <= i < j < |b| ensures b[i] != b[j] { assert all[|a| + i] != all[|a| + j]; }
    }
    if AllAskable(t, review, b) {
      forall i | 0 <= i < |all| ensures Askable(s, review, all[i]) {
        if i < |a| { assert all[i] == a[i]; } else { assert Askable(t, review, b[i - |a|]); }
      }
      forall i, j | 0 <= i < j < |all| ensures all[i] != all[j] {
        if j < |a| { assert a[i] != a[j]; } else {
          assert Askable(t, review, b[j - |a|]);
          if i < |a| { assert a[i] in a; } else { assert b[i - |a|] != b[j - |a|]; }
        }
      }
    }
  }

  lemma AskablePrefix(s: AgentState, review: Review, a: seq<Id>, b: seq<Id>)
    requires AllAskable(s, review, a + b)
    ensures AllAskable(s, review, a)
  {
    assert forall i :: 0 <= i < |a| ==> (a + b)[i] == a[i];
  }

  lemma RoomPrefix(s: AgentState, a: seq<QueueInput>, b: seq<QueueInput>)
    requires Room(s, a + b)
    ensures Room(s, a)
  {
    TotalOfTwo(a, b);
    ShortTwice(a, b);
  }

  lemma InputsPrefix(s: AgentState, review: Review, a: seq<Id>, b: seq<Id>)
    ensures InputsOf(s, review, a + b) == InputsOf(s, review, a) + InputsOf(s, review, b)
  {
  }

  /** Two lists one after the other are one list. */
  lemma CommentsTwice(s: AgentState, review: Review, a: seq<Id>, b: seq<Id>, next: nat)
    ensures var r := EnqueueComments(s, review, a, next);
      (r.Ok? && EnqueueComments(r.value, review, b, next + |a|).Ok?) <==>
        AllAskable(s, review, a + b) && Room(s, InputsOf(s, review, a + b))
    ensures var r := EnqueueComments(s, review, a, next);
      r.Ok? && EnqueueComments(r.value, review, b, next + |a|).Ok? ==>
        Took(s, EnqueueComments(r.value, review, b, next + |a|).value, InputsOf(s, review, a + b))
  {
    hide Room, Took, EnqueueComments, AllAskable, InputsOf, HasComment, SameBodies, MarkAll;
    EnqueueCommentsExactly(s, review, a, next);
    var r := EnqueueComments(s, review, a, next);
    if r.Ok? {
      var t := r.value;
      EnqueueCommentsExactly(t, review, b, next + |a|);
      AskableTwice(s, t, review, a, b);
      RoomTwice(s, t, InputsOf(s, review, a), InputsOf(t, review, b));
      var q := EnqueueComments(t, review, b, next + |a|);
      if q.Ok? { TookTwice(s, t, q.value, InputsOf(s, review, a), InputsOf(t, review, b)); }
    } else if AllAskable(s, review, a + b) && Room(s, InputsOf(s, review, a + b)) {
      AskablePrefix(s, review, a, b);
      InputsPrefix(s, review, a, b);
      RoomPrefix(s, InputsOf(s, review, a), InputsOf(s, review, b));
      assert false;
    }
  }

  lemma PlainExactly(u: AgentState, p: PromptRequest, n: nat)
    ensures EnqueuePlain(u, p, n).Ok? <==> Room(u, PlainInputs(p))
  {
    if Trim(p.text) != "" { EnqueueExactly(u, QueueInput(Trim(p.text), p.context.GetOr(""), None, None), InputId(p, n)); }
  }

  lemma OwnAre(s: AgentState, t: AgentState, p: PromptRequest, review: Review)
    requires t.comments == MarkAll(s, BatchAnnotations(s, p, review)).comments
    ensures BatchComments(s, p, review) == BatchAnnotations(s, p, review) + OwnComments(t, p)
  {
  }

  lemma BatchIsTwo(s: AgentState, p: PromptRequest, review: Review, next: nat)
    requires EnqueueComments(s, review, BatchAnnotations(s, p, review), next).Ok?
    ensures var notes := BatchAnnotations(s, p, review);
      var t := EnqueueComments(s, review, notes, next).value;
      var own := OwnComments(t, p);
      BatchComments(s, p, review) == notes + own
      && (EnqueueBatch(s, p, review, next).Ok? <==>
            && EnqueueComments(t, review, own, next + |notes|).Ok?
            && EnqueuePlain(EnqueueComments(t, review, own, next + |notes|).value, p, next + |notes| + |own|).Ok?)
  {
    hide EnqueueComments, EnqueuePlain, MarkAll;
    var notes := BatchAnnotations(s, p, review);
    EnqueueCommentsExactly(s, review, notes, next);
    OwnAre(s, EnqueueComments(s, review, notes, next).value, p, review);
  }

  /** A batch is queued if and only if its comments can be asked and everything fits. */
  lemma EnqueueBatchExactly(s: AgentState, p: PromptRequest, review: Review, next: nat)
    ensures EnqueueBatch(s, p, review, next).Ok? <==>
      AllAskable(s, review, BatchComments(s, p, review)) && Room(s, BatchInputs(s, p, review))
  {
    hide Room, Took, AllAskable, InputsOf, EnqueueComments, EnqueueBatch, EnqueuePlain, BatchComments, BatchAnnotations,
      OwnComments, PlainInputs;
    var notes := BatchAnnotations(s, p, review);
    var first := EnqueueComments(s, review, notes, next);
    if first.Ok? {
      var own := OwnComments(first.value, p);
      BatchIsTwo(s, p, review, next);
      CommentsTwice(s, review, notes, own, next);
      BatchOfTwo(s, p, review, next, own);
    } else {
      NotesRefused(s, p, review, next);
    }
  }

  lemma BatchOfTwo(s: AgentState, p: PromptRequest, review: Review, next: nat, own: seq<Id>)
    requires EnqueueComments(s, review, BatchAnnotations(s, p, review), next).Ok?
    requires own == OwnComments(EnqueueComments(s, review, BatchAnnotations(s, p, review), next).value, p)
    requires BatchComments(s, p, review) == BatchAnnotations(s, p, review) + own
    ensures EnqueueBatch(s, p, review, next).Ok? <==>
      AllAskable(s, review, BatchComments(s, p, review)) && Room(s, BatchInputs(s, p, review))
  {
    hide Room, Took, AllAskable, InputsOf, EnqueueComments, EnqueueBatch, EnqueuePlain, BatchComments, BatchAnnotations,
      OwnComments, PlainInputs;
    var notes := BatchAnnotations(s, p, review);
    var inputs, plain := InputsOf(s, review, notes + own), PlainInputs(p);
    var first := EnqueueComments(s, review, notes, next);
    BatchIsTwo(s, p, review, next);
    CommentsTwice(s, review, notes, own, next);
    var second := EnqueueComments(first.value, review, own, next + |notes|);
    if second.Ok? {
      PlainExactly(second.value, p, next + |notes| + |own|);
      RoomTwice(s, second.value, inputs, plain);
    } else if Room(s, inputs + plain) {
      RoomPrefix(s, inputs, plain);
    }
  }

  lemma NotesRefused(s: AgentState, p: PromptRequest, review: Review, next: nat)
    requires EnqueueComments(s, review, BatchAnnotations(s, p, review), next).Err?
    ensures EnqueueBatch(s, p, review, next).Err?
    ensures !(AllAskable(s, review, BatchComments(s, p, review)) && Room(s, BatchInputs(s, p, review)))
  {
    hide Room, AllAskable, EnqueueComments, MarkAll, EnqueuePlain;
    var notes := BatchAnnotations(s, p, review);
    EnqueueCommentsExactly(s, review, notes, next);
    var rest := BatchComments(s, p, review)[|notes|..];
    assert BatchComments(s, p, review) == notes + rest;
    if AllAskable(s, review, notes + rest) && Room(s, BatchInputs(s, p, review)) {
      AskablePrefix(s, review, notes, rest);
      InputsPrefix(s, review, notes, rest);
      assert BatchInputs(s, p, review) == InputsOf(s, review, notes) + (InputsOf(s, review, rest) + PlainInputs(p));
      RoomPrefix(s, InputsOf(s, review, notes), InputsOf(s, review, rest) + PlainInputs(p));
      assert false;
    }
  }

  // ---- the receipt ----

  lemma OneNewId(before: seq<Submission>, added: seq<Submission>)
    requires added != [] && IndexOfSubmission(before, added[0].id) == |before|
    ensures NewIds(before, before + added) != []
  {
    forall i | 0 <= i < |before| ensures IndexOfSubmission(before, before[i].id) < |before| {}
    NewIdsOfKept(before, before, added);
    assert added == [added[0]] + added[1..];
  }

  /** A request with an operation fails for want of input only when it adds nothing and retries nothing. */
  lemma RecordExactly(s: AgentState, t: AgentState, p: PromptRequest, added: seq<Submission>)
    requires t.submissions == s.submissions + added
    requires forall i :: 0 <= i < |added| ==> IndexOfSubmission(s.submissions, added[i].id) == |s.submissions|
    ensures Record(t, s, p).Ok? <==> p.operation.None? || p.retry.Some? || added != []
  {
    if added != [] {
      OneNewId(s.submissions, added);
    } else {
      assert t.submissions == s.submissions;
      forall i | 0 <= i < |s.submissions| ensures IndexOfSubmission(s.submissions, s.submissions[i].id) < |s.submissions| {}
      NewIdsOfKept(s.submissions, s.submissions, []);
      assert s.submissions + [] == s.submissions;
    }
  }

  predicate Fresh(receipts: seq<Receipt>, p: PromptRequest) {
    p.operation.None? || ((forall i :: 0 <= i < |receipts| ==> receipts[i].operation != p.operation.value) && |receipts| < 128)
  }

  lemma BoundChangesNothing(s: AgentState, p: PromptRequest, review: Review, fallback: string)
    ensures Acceptable(Bound(s, fallback), p, review) == Acceptable(s, p, review)
  {
    var b := Bound(s, fallback);
    if p.comment.None? && p.retry.None? {
      MarkAllAgrees(s, b, BatchAnnotations(s, p, review));
      assert BatchComments(s, p, review) == BatchComments(b, p, review);
      var comments := BatchComments(s, p, review);
      hide MarkAll, BatchComments;
      assert InputsOf(s, review, comments) == InputsOf(b, review, comments);
      assert BatchInputs(s, p, review) == BatchInputs(b, p, review);
    }
  }

  /** Accepting succeeds if and only if the guard holds. */
  lemma AcceptExactly(s: AgentState, p: PromptRequest, review: Review, next: nat, fallback: string)
    requires FindReceipt(s.receipts, p) == Ok(None) && IdsKnown(s.submissions, s.receipts, next)
    ensures Accept(s, p, review, next, fallback).Ok? <==> Acceptable(s, p, review)
  {
    var b := Bound(s, fallback);
    BoundChangesNothing(s, p, review, fallback);
    hide Acceptable, EnqueueRequest, FindReceipt, Record;
    RequestExactly(b, p, review, next);
    if EnqueueRequest(b, p, review, next).Ok? {
      var t := EnqueueRequest(b, p, review, next).value;
      if IsRetry(p) {
        RecordRetry(t, s, p);
      } else {
        var added := QueuedShape(b, p, review, next);
        MintingIsFresh(s, p, next, next + Minted(s, review), added);
        assert forall i :: 0 <= i < |added| ==> IndexOfSubmission(s.submissions, added[i].id) == |s.submissions|;
        RecordExactly(s, t, p, added);
        AddedExactly(b, p, review, next, added);
      }
    }
  }

  /** Everything but the receipt. */
  ghost predicate Queueable(s: AgentState, p: PromptRequest, review: Review) {
    Acceptable(s, p.(operation := None), review)
  }

  lemma RequestExactly(s: AgentState, p: PromptRequest, review: Review, next: nat)
    ensures EnqueueRequest(s, p, review, next).Ok? <==> Queueable(s, p, review)
    ensures Acceptable(s, p, review) <==>
      Queueable(s, p, review) && (p.comment.None? && p.retry.None? && p.operation.Some? ==> BatchInputs(s, p, review) != [])
  {
    hide EnqueueComment, EnqueueBatch, Room, Askable, AllAskable;
    if p.comment.Some? {
      var frozen := if p.discussion.Some? then Some(p) else None;
      EnqueueCommentExactly(s, review, p.comment.value, frozen, InputId(p, next));
      SameFrozenInput(s, review, p);
    } else if p.retry.None? {
      EnqueueBatchExactly(s, p, review, next);
      SameBatch(s, review, p);
    }
  }

  lemma SameFrozenInput(s: AgentState, review: Review, p: PromptRequest)
    requires p.comment.Some?
    ensures var q := p.(operation := None);
      InputOf(s, review, p.comment.value, Some(p)) == InputOf(s, review, p.comment.value, Some(q))
  {
  }

  lemma SameBatch(s: AgentState, review: Review, p: PromptRequest)
    ensures var q := p.(operation := None);
      BatchComments(s, q, review) == BatchComments(s, p, review) && BatchInputs(s, q, review) == BatchInputs(s, p, review)
  {
  }

  /** A queued request adds nothing exactly when its batch is empty. */
  lemma AddedExactly(s: AgentState, p: PromptRequest, review: Review, next: nat, added: seq<Submission>)
    requires !IsRetry(p) && EnqueueRequest(s, p, review, next).Ok?
    requires EnqueueRequest(s, p, review, next).value.submissions == s.submissions + added
    ensures p.comment.Some? ==> added != []
    ensures p.comment.None? ==> (added == [] <==> BatchInputs(s, p, review) == [])
  {
    if p.comment.Some? {
      var frozen := if p.discussion.Some? then Some(p) else None;
      var q := EnqueueCommentGrows(s, review, p.comment.value, frozen, InputId(p, next));
      assert |s.submissions + added| == |s.submissions| + 1;
    } else {
      BatchCounts(s, p, review, next);
    }
  }

  lemma BatchCounts(s: AgentState, p: PromptRequest, review: Review, next: nat)
    requires EnqueueBatch(s, p, review, next).Ok?
    ensures |EnqueueBatch(s, p, review, next).value.submissions| == |s.submissions| + |BatchInputs(s, p, review)|
  {
    hide EnqueueComments, EnqueuePlain, MarkAll, InputsOf;
    var notes := BatchAnnotations(s, p, review);
    EnqueueCommentsExactly(s, review, notes, next);
    BatchIsTwo(s, p, review, next);
    var t := EnqueueComments(s, review, notes, next).value;
    var own := OwnComments(t, p);
    var u := EnqueueComments(t, review, own, next + |notes|).value;
    var a := EnqueueCommentsGrows(s, review, notes, next);
    var b := EnqueueCommentsGrows(t, review, own, next + |notes|);
    PlainCounts(u, p, next + |notes| + |own|);
  }

  lemma PlainCounts(u: AgentState, p: PromptRequest, n: nat)
    requires EnqueuePlain(u, p, n).Ok?
    ensures |EnqueuePlain(u, p, n).value.submissions| == |u.submissions| + |PlainInputs(p)|
  {
  }

  // ---- the four answers of a prompt ----

  /** The recorded payload is this request's, field by field. */
  predicate SamePayload(f: Fingerprint, p: PromptRequest) {
    && f.text == p.text && f.context == p.context && f.retry == p.retry && f.comment == p.comment
    && f.inputOnly == p.inputOnly && f.discussion == p.discussion
  }

  predicate SameRequest(receipts: seq<Receipt>, p: PromptRequest) {
    p.operation.Some? &&
    var n := IndexOfReceipt(receipts, p.operation.value);
    n < |receipts| && SamePayload(receipts[n].fingerprint, p)
  }

  /** The harness a Thread is on, or is put on first. */
  function HarnessOf(cfg: Config, s: AgentState): string {
    match s.harness
    case None => cfg.fallback
    case Some(h) => h.id
  }

  /** There is an adapter for the Thread's harness. */
  predicate AtHand(cfg: Config, s: AgentState) {
    HarnessOf(cfg, s) == cfg.fallback || HarnessOf(cfg, s) in cfg.adapters
  }

  /** And it can take up a turn again after a restart. */
  predicate Revives(cfg: Config, s: AgentState) {
    AtHand(cfg, s) && HarnessOf(cfg, s) in cfg.durable
  }

  /** No turn is in progress and no connection is closing. */
  predicate AtRest(m: Machine) {
    m.mem.phase in {PhaseIdle, PhaseFailed} && !m.retiring
  }

  /** The cheap refusals do not fire. */
  predicate Admitted(cfg: Config, m: Machine, p: PromptRequest, review: Review) {
    Fresh(m.mem.receipts, p) && review.pending && AtHand(cfg, m.mem)
  }

  /** Each answer if and only if its guards hold: a repeat carries a known operation with the same payload; a
      prompt that passes the cheap refusals is accepted when it can be queued and saved, and rolled back
      otherwise; everything else is refused outright. */
  lemma AnswersExactly(cfg: Config, m: Machine, p: PromptRequest, review: Review, saved: bool)
    requires Sane(m)
    ensures var o := Prompted(cfg, m, p, review, saved).1;
      && (o.Repeated? <==> SameRequest(m.mem.receipts, p))
      && (o.Accepted? <==> Admitted(cfg, m, p, review) && Acceptable(m.mem, p, review) && saved)
      && (o.RolledBack? <==> Admitted(cfg, m, p, review) && !(Acceptable(m.mem, p, review) && saved))
      && (o.Refused? <==> !SameRequest(m.mem.receipts, p) && !Admitted(cfg, m, p, review))
  {
    hide Accept, Acceptable;
    assert FindReceipt(m.mem.receipts, p) == Ok(None) <==> Fresh(m.mem.receipts, p);
    if FindReceipt(m.mem.receipts, p) == Ok(None) {
      AcceptExactly(m.mem, p, review, m.next, cfg.fallback);
    }
  }
}
