/**
 * With what words a prompt is queued (packages/daemon/src/thread-agent.ts, `prompt`, `enqueueComment`): which
 * comments a batch asks about, and for every new submission its text, its quote and its context, taken from
 * the review, the discussion or the request.
 */
module AgentInputs {
  import opened Common
  import opened Text
  import opened AgentTurn
  import opened Transcript
  import opened Receipts
  import opened AgentQueue
  import opened AgentAcceptance
  import opened AgentMachine
  import opened AgentSafety
  import opened AgentGuards
  import AgentLedger

  /** The words of a note; a shared request's frozen snapshot goes before them, part by part. */
  ghost predicate Words(q: Submission, frozen: Option<PromptRequest>, body: string, quote: string) {
    && q.prompt == (if frozen.Some? then frozen.value.text else body)
    && q.quote == (if frozen.Some? && frozen.value.context.Some? then frozen.value.context.value else quote)
    && q.context == (if frozen.Some? then frozen.value.discussion else None)
  }

  /** The submission asks about this comment: in the words of the review's first annotation of that name, and
      of the agent's own first comment of that name if the review has none. */
  ghost predicate AsksAbout(q: Submission, s: AgentState, review: Review, comment: Id, frozen: Option<PromptRequest>) {
    && q.comment == comment
    && (forall a :: 0 <= a < |review.annotations| && IsFirstNote(review.annotations, a, comment) ==>
          Words(q, frozen, review.annotations[a].body, review.annotations[a].quote))
    && (forall c :: 0 <= c < |s.comments| && IsFirstComment(s.comments, c, comment)
                    && (forall a :: 0 <= a < |review.annotations| ==> review.annotations[a].id != comment) ==>
          Words(q, frozen, s.comments[c].body, s.comments[c].quote))
  }

  predicate IsFirstNote(notes: seq<Annotation>, a: nat, id: Id) {
    a < |notes| && notes[a].id == id && forall i :: 0 <= i < a ==> notes[i].id != id
  }

  predicate IsFirstComment(comments: seq<Comment>, c: nat, id: Id) {
    c < |comments| && comments[c].id == id && forall i :: 0 <= i < c ==> comments[i].id != id
  }

  lemma FirstNoteIs(notes: seq<Annotation>, a: nat, id: Id)
    requires IsFirstNote(notes, a, id)
    ensures IndexOfAnnotation(notes, id) == a
  {
  }

  lemma FirstCommentIs(comments: seq<Comment>, c: nat, id: Id)
    requires IsFirstComment(comments, c, id)
    ensures IndexOfComment(comments, id) == c
  {
  }

  lemma CommentAsks(s: AgentState, review: Review, comment: Id, frozen: Option<PromptRequest>, id: Id)
    requires EnqueueComment(s, review, comment, frozen, id).Ok?
    ensures var t := EnqueueComment(s, review, comment, frozen, id).value;
      && |t.submissions| == |s.submissions| + 1 && t.submissions[..|s.submissions|] == s.submissions
      && AsksAbout(t.submissions[|s.submissions|], s, review, comment, frozen)
  {
    hide HasComment, Fits;
    forall a | 0 <= a < |review.annotations| && IsFirstNote(review.annotations, a, comment)
      ensures IndexOfAnnotation(review.annotations, comment) == a
    {
      FirstNoteIs(review.annotations, a, comment);
    }
    forall c | 0 <= c < |s.comments| && IsFirstComment(s.comments, c, comment) ensures IndexOfComment(s.comments, comment) == c {
      FirstCommentIs(s.comments, c, comment);
    }
  }

  /** Marks do not change what a comment says. */
  lemma AsksTheSame(q: Submission, s: AgentState, t: AgentState, review: Review, comment: Id, frozen: Option<PromptRequest>)
    requires AsksAbout(q, t, review, comment, frozen) && SameBodies(s.comments, t.comments)
    ensures AsksAbout(q, s, review, comment, frozen)
  {
    forall c | 0 <= c < |s.comments| ensures s.comments[c].id == t.comments[c].id
      && s.comments[c].body == t.comments[c].body && s.comments[c].quote == t.comments[c].quote
    {
      assert s.comments[c].(sent := true) == t.comments[c].(sent := true);
    }
    hide Words;
    forall c | 0 <= c < |s.comments| && IsFirstComment(s.comments, c, comment) ensures IsFirstComment(t.comments, c, comment) {}
  }

  /** `added` asks about each of these, in this order. */
  ghost predicate AllAsk(added: seq<Submission>, s: AgentState, review: Review, comments: seq<Id>) {
    |added| == |comments| && forall i :: 0 <= i < |comments| ==> AsksAbout(added[i], s, review, comments[i], None)
  }

  lemma {:induction false} CommentsAsk(s: AgentState, review: Review, comments: seq<Id>, next: nat) returns (added: seq<Submission>)
    requires EnqueueComments(s, review, comments, next).Ok?
    ensures EnqueueComments(s, review, comments, next).value.submissions == s.submissions + added
    ensures AllAsk(added, s, review, comments)
    decreases |comments|
  {
    hide EnqueueComment, AllAsk, AsksAbout, SameBodies;
    if comments == [] {
      added := [];
      NoneAsks(s, review);
    } else {
      var q := FirstAsks(s, review, comments[0], Uuid(next));
      var t := EnqueueComment(s, review, comments[0], None, Uuid(next)).value;
      var rest := CommentsAsk(t, review, comments[1..], next + 1);
      added := [q] + rest;
      OneMoreAsks(q, rest, s, t, review, comments);
      assert s.submissions + [q] + rest == s.submissions + added;
    }
  }

  lemma NoneAsks(s: AgentState, review: Review)
    ensures AllAsk([], s, review, [])
  {
  }

  lemma FirstAsks(s: AgentState, review: Review, comment: Id, id: Id) returns (q: Submission)
    requires EnqueueComment(s, review, comment, None, id).Ok?
    ensures var t := EnqueueComment(s, review, comment, None, id).value;
      t.submissions == s.submissions + [q] && AsksAbout(q, s, review, comment, None) && SameBodies(s.comments, t.comments)
  {
    CommentAsks(s, review, comment, None, id);
    OneCommentMore(s, review, comment, None, id);
    hide EnqueueComment, AsksAbout, HasComment, SameBodies;
    q := EnqueueComment(s, review, comment, None, id).value.submissions[|s.submissions|];
  }

  lemma OneMoreAsks(q: Submission, rest: seq<Submission>, s: AgentState, t: AgentState, review: Review, comments: seq<Id>)
    requires comments != [] && AsksAbout(q, s, review, comments[0], None) && AllAsk(rest, t, review, comments[1..])
    requires SameBodies(s.comments, t.comments)
    ensures AllAsk([q] + rest, s, review, comments)
  {
    hide AsksAbout, SameBodies;
    forall i | 0 <= i < |rest| ensures AsksAbout(rest[i], s, review, comments[i + 1], None) {
      AsksTheSame(rest[i], s, t, review, comments[1..][i], None);
    }
  }

  /** The typed text, with the request's context as its quote. */
  ghost predicate Typed(q: Submission, p: PromptRequest) {
    q.prompt == Trim(p.text) && q.quote == p.context.GetOr("") && q.context == None && q.comment == q.id
  }

  lemma PlainIsTyped(u: AgentState, p: PromptRequest, n: nat)
    requires EnqueuePlain(u, p, n).Ok?
    ensures var t := EnqueuePlain(u, p, n).value;
      if Trim(p.text) == "" then t == u
      else |t.submissions| == |u.submissions| + 1 && t.submissions[..|u.submissions|] == u.submissions
           && Typed(t.submissions[|u.submissions|], p)
  {
  }

  lemma AllAskTwice(a: seq<Submission>, b: seq<Submission>, s: AgentState, t: AgentState, review: Review, notes: seq<Id>, own: seq<Id>)
    requires AllAsk(a, s, review, notes) && AllAsk(b, t, review, own) && SameBodies(s.comments, t.comments)
    ensures AllAsk(a + b, s, review, notes + own)
  {
    hide AsksAbout;
    forall i | 0 <= i < |own| ensures AsksAbout(b[i], s, review, own[i], None) { AsksTheSame(b[i], s, t, review, own[i], None); }
  }

  /** A batch asks about each of its comments, in order and in that comment's words, and then the typed text. */
  lemma BatchAsks(s: AgentState, p: PromptRequest, review: Review, next: nat) returns (added: seq<Submission>)
    requires EnqueueBatch(s, p, review, next).Ok?
    ensures var comments := BatchComments(s, p, review);
      && EnqueueBatch(s, p, review, next).value.submissions == s.submissions + added
      && |comments| <= |added|
      && AllAsk(added[..|comments|], s, review, comments)
      && (if Trim(p.text) == "" then |added| == |comments| else |added| == |comments| + 1 && Typed(added[|comments|], p))
  {
    hide EnqueueComments, EnqueueBatch, EnqueuePlain, AllAsk, BatchAnnotations, BatchComments, OwnComments, SameBodies, Typed;
    var notes := BatchAnnotations(s, p, review);
    BatchNotes(s, p, review, next);
    var t := EnqueueComments(s, review, notes, next).value;
    var own := OwnComments(t, p);
    var u := EnqueueComments(t, review, own, next + |notes|).value;
    var a := CommentsAsk(s, review, notes, next);
    var b := CommentsAsk(t, review, own, next + |notes|);
    AllAskTwice(a, b, s, t, review, notes, own);
    AllAskLength(a + b, s, review, notes + own);
    PlainIsTyped(u, p, next + |notes| + |own|);
    var v := EnqueuePlain(u, p, next + |notes| + |own|).value;
    assert s.submissions + a + b == s.submissions + (a + b);
    added := PlainAppends(s.submissions, a + b, u, v);
    assert added[..|notes + own|] == a + b;
  }

  lemma PlainAppends(before: seq<Submission>, list: seq<Submission>, u: AgentState, v: AgentState) returns (added: seq<Submission>)
    requires u.submissions == before + list && |u.submissions| <= |v.submissions| && v.submissions[..|u.submissions|] == u.submissions
    ensures v.submissions == before + added && |added| == |list| + |v.submissions| - |u.submissions| && added[..|list|] == list
    ensures |v.submissions| > |u.submissions| ==> added[|list|] == v.submissions[|u.submissions|]
  {
    added := v.submissions[|before|..];
  }

  /** The three parts of a batch. */
  lemma BatchNotes(s: AgentState, p: PromptRequest, review: Review, next: nat)
    requires EnqueueBatch(s, p, review, next).Ok?
    ensures var notes := BatchAnnotations(s, p, review);
      var first := EnqueueComments(s, review, notes, next);
      && first.Ok?
      && var own := OwnComments(first.value, p);
      var second := EnqueueComments(first.value, review, own, next + |notes|);
      && second.Ok?
      && EnqueuePlain(second.value, p, next + |notes| + |own|).Ok?
      && EnqueueBatch(s, p, review, next) == EnqueuePlain(second.value, p, next + |notes| + |own|)
      && BatchComments(s, p, review) == notes + own && SameBodies(s.comments, first.value.comments)
  {
    hide EnqueueComments, EnqueuePlain, MarkAll, HasComment, SameBodies, Took, Room, BatchAnnotations, OwnComments, BatchComments;
    EnqueueCommentsExactly(s, review, BatchAnnotations(s, p, review), next);
    BatchIsTwo(s, p, review, next);
  }

  lemma AllAskLength(added: seq<Submission>, s: AgentState, review: Review, comments: seq<Id>)
    requires AllAsk(added, s, review, comments)
    ensures |added| == |comments|
  {
  }

  // ---- which comments a batch asks about ----

  /** Exactly the annotations that ask and are not queued, in the review's order. */
  lemma {:induction false} AskedExactly(notes: seq<Annotation>, subs: seq<Submission>, id: Id)
    ensures id in AskingAnnotations(notes, subs) <==>
      !HasComment(subs, id) && exists i :: 0 <= i < |notes| && notes[i].id == id && notes[i].asks
  {
    if notes != [] {
      AskedExactly(notes[1..], subs, id);
      hide HasComment;
      if exists i :: 0 <= i < |notes| && notes[i].id == id && notes[i].asks {
        var i :| 0 <= i < |notes| && notes[i].id == id && notes[i].asks;
        if i > 0 { assert notes[1..][i - 1] == notes[i]; }
      }
      if exists i :: 0 <= i < |notes[1..]| && notes[1..][i].id == id && notes[1..][i].asks {
        var i :| 0 <= i < |notes[1..]| && notes[1..][i].id == id && notes[1..][i].asks;
        assert notes[i + 1] == notes[1..][i];
      }
    }
  }

  lemma {:induction false} AskedInOrder(a: seq<Annotation>, b: seq<Annotation>, subs: seq<Submission>)
    ensures AskingAnnotations(a + b, subs) == AskingAnnotations(a, subs) + AskingAnnotations(b, subs)
  {
    if a == [] {
      assert a + b == b;
    } else {
      hide HasComment;
      assert (a + b)[0] == a[0] && (a + b)[1..] == a[1..] + b;
      AskedInOrder(a[1..], b, subs);
    }
  }

  /** Exactly the comments not sent yet, in the discussion's order. */
  lemma {:induction false} UnsentExactly(comments: seq<Comment>, id: Id)
    ensures id in UnsentComments(comments) <==> exists i :: 0 <= i < |comments| && comments[i].id == id && !comments[i].sent
  {
    if comments != [] {
      UnsentExactly(comments[1..], id);
      if exists i :: 0 <= i < |comments| && comments[i].id == id && !comments[i].sent {
        var i :| 0 <= i < |comments| && comments[i].id == id && !comments[i].sent;
        if i > 0 { assert comments[1..][i - 1] == comments[i]; }
      }
      if exists i :: 0 <= i < |comments[1..]| && comments[1..][i].id == id && !comments[1..][i].sent {
        var i :| 0 <= i < |comments[1..]| && comments[1..][i].id == id && !comments[1..][i].sent;
        assert comments[i + 1] == comments[1..][i];
      }
    }
  }

  lemma {:induction false} UnsentInOrder(a: seq<Comment>, b: seq<Comment>)
    ensures UnsentComments(a + b) == UnsentComments(a) + UnsentComments(b)
  {
    if a == [] {
      assert a + b == b;
    } else {
      assert (a + b)[0] == a[0] && (a + b)[1..] == a[1..] + b;
      UnsentInOrder(a[1..], b);
    }
  }

  ghost predicate DistinctIdsOf(comments: seq<Comment>) {
    forall i, j :: 0 <= i < j < |comments| ==> comments[i].id != comments[j].id
  }

  /** A comment of the discussion counts as sent once it is in the list. */
  lemma {:induction false} MarkedExactly(s: AgentState, list: seq<Id>)
    requires DistinctIdsOf(s.comments)
    ensures |MarkAll(s, list).comments| == |s.comments|
    ensures forall i :: 0 <= i < |s.comments| ==>
      MarkAll(s, list).comments[i] == s.comments[i].(sent := s.comments[i].sent || s.comments[i].id in list)
    decreases |list|
  {
    if list != [] {
      var t := MarkSent(s, list[0]);
      forall i | 0 <= i < |s.comments| ensures t.comments[i] == s.comments[i].(sent := s.comments[i].sent || s.comments[i].id == list[0]) {}
      MarkedExactly(t, list[1..]);
    }
  }

  /** What a batch asks about: unless it is for plain input only, the asking annotations that are not queued and
      the unsent comments that are not among those; in this order, each list in its own. */
  lemma BatchAsksAboutExactly(s: AgentState, p: PromptRequest, review: Review, id: Id)
    requires DistinctIdsOf(s.comments)
    ensures var notes := AskingAnnotations(review.annotations, s.submissions);
      id in BatchComments(s, p, review) <==>
        && !p.inputOnly
        && (|| (!HasComment(s.submissions, id) && exists i :: 0 <= i < |review.annotations| && review.annotations[i].id == id && review.annotations[i].asks)
            || (exists i :: 0 <= i < |s.comments| && s.comments[i].id == id && !s.comments[i].sent))
  {
    if !p.inputOnly {
      var notes := AskingAnnotations(review.annotations, s.submissions);
      var marked := MarkAll(s, notes).comments;
      AskedExactly(review.annotations, s.submissions, id);
      UnsentExactly(marked, id);
      MarkedExactly(s, notes);
      hide HasComment, AskingAnnotations, UnsentComments, MarkAll;
      assert BatchComments(s, p, review) == notes + UnsentComments(marked);
      if exists i :: 0 <= i < |s.comments| && s.comments[i].id == id && !s.comments[i].sent {
        var i :| 0 <= i < |s.comments| && s.comments[i].id == id && !s.comments[i].sent;
        assert id in notes || !marked[i].sent;
      }
      if id in UnsentComments(marked) {
        var i :| 0 <= i < |marked| && marked[i].id == id && !marked[i].sent;
        assert s.comments[i].id == id && !s.comments[i].sent;
      }
    } else {
      assert MarkAll(s, []) == s;
    }
  }

  // ---- the accepted prompt ----

  /** What an accepted prompt that is no retry adds, word for word: to the queue, and as the user's messages. */
  ghost predicate AddsWords(s: AgentState, p: PromptRequest, review: Review, added: seq<Submission>) {
    if p.comment.Some? then
      |added| == 1 && AsksAbout(added[0], s, review, p.comment.value, if p.discussion.Some? then Some(p) else None)
    else
      var comments := BatchComments(s, p, review);
      && |comments| <= |added|
      && AllAsk(added[..|comments|], s, review, comments)
      && (if Trim(p.text) == "" then |added| == |comments| else |added| == |comments| + 1 && Typed(added[|comments|], p))
  }

  lemma RequestAsks(s: AgentState, p: PromptRequest, review: Review, next: nat) returns (added: seq<Submission>)
    requires !IsRetry(p) && EnqueueRequest(s, p, review, next).Ok?
    ensures EnqueueRequest(s, p, review, next).value.submissions == s.submissions + added
    ensures AddsWords(s, p, review, added)
  {
    if p.comment.Some? {
      var frozen := if p.discussion.Some? then Some(p) else None;
      CommentAsks(s, review, p.comment.value, frozen, InputId(p, next));
      hide EnqueueComment, AsksAbout;
      var t := EnqueueRequest(s, p, review, next).value;
      added := [t.submissions[|s.submissions|]];
      assert t.submissions == s.submissions + added;
    } else {
      hide EnqueueBatch, AllAsk, BatchComments;
      added := BatchAsks(s, p, review, next);
    }
  }

  /** An accepted prompt that is no retry appends exactly the submissions it asks for, in their own words, and a
      user message with each one's text; the file has both. */
  lemma AcceptedPromptsAsk(cfg: Config, m: Machine, p: PromptRequest, review: Review) returns (added: seq<Submission>)
    requires Sane(m) && !IsRetry(p) && Prompted(cfg, m, p, review, true).1.Accepted?
    ensures var t := Prompted(cfg, m, p, review, true).0;
      && t.disk == t.mem
      && t.mem.submissions == m.mem.submissions + added
      && |t.mem.messages| == |m.mem.messages| + |added| && t.mem.messages[..|m.mem.messages|] == m.mem.messages
      && (forall i :: 0 <= i < |added| ==>
            var message := t.mem.messages[|m.mem.messages| + i];
            message.user && message.complete && message.owner == added[i].id && message.text == added[i].prompt)
      && AddsWords(m.mem, p, review, added)
  {
    var b := Bound(m.mem, cfg.fallback);
    AcceptedIsEnqueued(cfg, m, p, review);
    hide Prompted, EnqueueRequest, AddsWords, Minting, Sane;
    added := RequestAsks(b, p, review, m.next);
    var grown := QueuedShape(b, p, review, m.next);
    assert added == grown by { SameTail(b.submissions, added, grown); }
    BoundAddsWords(m.mem, p, review, cfg.fallback, added);
    assert (m.mem.messages + InputMessages(added))[..|m.mem.messages|] == m.mem.messages;
  }

  lemma SameTail(s: seq<Submission>, a: seq<Submission>, b: seq<Submission>)
    requires s + a == s + b
    ensures a == b
  {
    assert (s + a)[|s|..] == a && (s + b)[|s|..] == b;
  }

  lemma AcceptedIsEnqueued(cfg: Config, m: Machine, p: PromptRequest, review: Review)
    requires Prompted(cfg, m, p, review, true).1.Accepted?
    ensures var b := Bound(m.mem, cfg.fallback);
      var t := Prompted(cfg, m, p, review, true).0;
      && EnqueueRequest(b, p, review, m.next).Ok?
      && t.mem.submissions == EnqueueRequest(b, p, review, m.next).value.submissions
      && t.mem.messages == EnqueueRequest(b, p, review, m.next).value.messages
      && t.disk == t.mem && b.submissions == m.mem.submissions && b.messages == m.mem.messages
  {
    hide EnqueueRequest, FindReceipt, SettleReceipt;
  }

  lemma BoundAddsWords(s: AgentState, p: PromptRequest, review: Review, fallback: string, added: seq<Submission>)
    requires AddsWords(Bound(s, fallback), p, review, added)
    ensures AddsWords(s, p, review, added)
  {
    var b := Bound(s, fallback);
    forall q, comment, frozen | AsksAbout(q, b, review, comment, frozen) ensures AsksAbout(q, s, review, comment, frozen) {
      AsksTheSame(q, s, b, review, comment, frozen);
    }
    MarkAllAgrees(s, b, BatchAnnotations(s, p, review));
    assert BatchComments(s, p, review) == BatchComments(b, p, review);
    hide AsksAbout, BatchComments;
  }
}
