/**
 * A comment is submitted once, over any run: the queue refuses a comment it already carries. The one way two
 * submissions come to share a comment identity is a mirrored input whose operation ID is already in use as a
 * comment ID, because plain input is queued without that check.
 */
module AgentComments {
  import opened Common
  import opened Text
  import opened Receipts
  import opened AgentQueue
  import opened AgentAcceptance
  import opened AgentSafety
  import opened AgentMachine
  import opened AgentGuards
  import AgentLedger

  ghost predicate DistinctComments(subs: seq<Submission>) {
    forall i, j :: 0 <= i < j < |subs| ==> subs[i].comment != subs[j].comment
  }

  /** Nobody can name a UUID before it is minted. */
  predicate Nameable(next: nat, id: Id) {
    id.Uuid? ==> id.serial < next
  }

  ghost predicate NamesOk(s: AgentState, review: Review, next: nat) {
    && (forall i :: 0 <= i < |s.submissions| ==> Nameable(next, s.submissions[i].comment))
    && (forall i :: 0 <= i < |s.comments| ==> Nameable(next, s.comments[i].id))
    && (forall i :: 0 <= i < |review.annotations| ==> Nameable(next, review.annotations[i].id))
  }

  /** The guard the source does not have. */
  predicate MirrorsAComment(s: AgentState, p: PromptRequest) {
    && p.comment.None? && p.retry.None? && p.inputOnly && p.operation.Some? && Trim(p.text) != ""
    && HasComment(s.submissions, Key(p.operation.value))
  }

  lemma KnownIsNameable(s: AgentState, review: Review, next: nat, comment: Id)
    requires NamesOk(s, review, next) && Known(review, s, comment)
    ensures Nameable(next, comment)
  {
  }

  /** An accepted prompt keeps comment identities distinct exactly when it does not mirror one of them. */
  lemma CommentsStayDistinct(s: AgentState, p: PromptRequest, review: Review, next: nat, fallback: string)
    requires DistinctComments(s.submissions) && NamesOk(s, review, next)
    requires Accept(s, p, review, next, fallback).Ok?
    ensures DistinctComments(Accept(s, p, review, next, fallback).value.submissions) <==> !MirrorsAComment(s, p)
  {
    hide EnqueueRequest;
    var b := Bound(s, fallback);
    var t := EnqueueRequest(b, p, review, next).value;
    assert Accept(s, p, review, next, fallback) == Record(t, s, p);
    assert Accept(s, p, review, next, fallback).value.submissions == t.submissions;
    RequestComments(b, p, review, next);
  }

  lemma RequestComments(s: AgentState, p: PromptRequest, review: Review, next: nat)
    requires DistinctComments(s.submissions) && NamesOk(s, review, next)
    requires EnqueueRequest(s, p, review, next).Ok?
    ensures DistinctComments(EnqueueRequest(s, p, review, next).value.submissions) <==> !MirrorsAComment(s, p)
  {
    hide EnqueueComment, EnqueueBatch;
    var t := EnqueueRequest(s, p, review, next).value;
    if p.comment.Some? {
      var frozen := if p.discussion.Some? then Some(p) else None;
      var q := EnqueueCommentGrows(s, review, p.comment.value, frozen, InputId(p, next));
      OneMoreComment(s.submissions, q);
    } else if p.retry.Some? {
      assert |t.submissions| == |s.submissions|;
      assert forall i :: 0 <= i < |t.submissions| ==> t.submissions[i].comment == s.submissions[i].comment;
    } else {
      var added, comments := EnqueueBatchGrows(s, p, review, next);
      BatchKeepsComments(s, p, review, next, added, comments);
    }
  }

  lemma OneMoreComment(subs: seq<Submission>, q: Submission)
    requires DistinctComments(subs)
    ensures DistinctComments(subs + [q]) <==> !HasComment(subs, q.comment)
  {
    var all := subs + [q];
    if HasComment(subs, q.comment) {
      var i :| 0 <= i < |subs| && subs[i].comment == q.comment;
      assert all[i].comment == all[|subs|].comment;
    }
  }

  lemma BatchKeepsComments(s: AgentState, p: PromptRequest, review: Review, next: nat, added: seq<Submission>, comments: seq<Id>)
    requires DistinctComments(s.submissions) && NamesOk(s, review, next)
    requires p.comment.None? && p.retry.None?
    requires |comments| <= |added| <= |comments| + 1
    requires Numbered(added[..|comments|], comments, next)
    requires AllFresh(s, review, comments)
    requires Distinct(comments) && (p.inputOnly ==> comments == [])
    requires |added| == |comments| + 1 <==> Trim(p.text) != ""
    requires |added| == |comments| + 1 ==> added[|comments|].comment == InputId(p, next + |comments|)
    ensures DistinctComments(s.submissions + added) <==> !MirrorsAComment(s, p)
  {
    var first := added[..|comments|];
    var all := s.submissions + first;
    forall i, j | 0 <= i < j < |all| ensures all[i].comment != all[j].comment {
      var k := |s.submissions|;
      if j >= k {
        assert all[j] == first[j - k] && first[j - k].comment == comments[j - k];
        if i < k {
          assert all[i] == s.submissions[i];
          assert !HasComment(s.submissions, comments[j - k]);
        } else {
          assert all[i] == first[i - k] && first[i - k].comment == comments[i - k];
        }
      }
    }
    if |added| == |comments| + 1 {
      var q := added[|comments|];
      assert added == first + [q];
      assert s.submissions + added == all + [q];
      OneMoreComment(all, q);
      if q.comment.Uuid? {
        forall i | 0 <= i < |all| ensures all[i].comment != q.comment {
          if i >= |s.submissions| {
            assert all[i] == first[i - |s.submissions|];
            KnownIsNameable(s, review, next, comments[i - |s.submissions|]);
          }
        }
      } else {
        assert first == [] && all == s.submissions;
      }
    } else {
      assert added == first;
    }
  }

  // ---- over whole runs ----

  ghost predicate AllNameable(next: nat, subs: seq<Submission>, comments: seq<Comment>) {
    && (forall i :: 0 <= i < |subs| ==> Nameable(next, subs[i].comment))
    && (forall i :: 0 <= i < |comments| ==> Nameable(next, comments[i].id))
  }

  ghost predicate NamesAhead(m: Machine) {
    && AllNameable(m.next, m.mem.submissions, m.mem.comments)
    && AllNameable(m.next, m.disk.submissions, m.disk.comments)
  }

  /** Reviews and saved comments name no UUID before it is minted. */
  ghost predicate NamesKnown(m: Machine, e: Event) {
    && (e.AcceptPrompt? ==> forall i :: 0 <= i < |e.review.annotations| ==> Nameable(m.next, e.review.annotations[i].id))
    && (e.SaveComment? ==> Nameable(m.next, e.comment))
  }

  /** The prompt is accepted and mirrors a comment that the queue already carries. */
  ghost predicate Collides(cfg: Config, m: Machine, e: Event) {
    && e.AcceptPrompt? && e.saved
    && Admitted(cfg, m, e.prompt, e.review) && Acceptable(m.mem, e.prompt, e.review)
    && MirrorsAComment(m.mem, e.prompt)
  }

  lemma NameableLater(next: nat, later: nat, subs: seq<Submission>, comments: seq<Comment>)
    requires AllNameable(next, subs, comments) && next <= later
    ensures AllNameable(later, subs, comments)
  {
  }

  lemma NextGrows(cfg: Config, m: Machine, e: Event)
    ensures m.next <= Step(cfg, m, e).next
  {
    hide Accept, FindReceipt;
  }

  lemma CommentIdsNameable(next: nat, a: seq<Comment>, b: seq<Comment>)
    requires forall i :: 0 <= i < |a| ==> Nameable(next, a[i].id)
    requires IdsOfComments(a) == IdsOfComments(b)
    ensures forall i :: 0 <= i < |b| ==> Nameable(next, b[i].id)
  {
    assert |a| == |b|;
    forall i | 0 <= i < |b| ensures Nameable(next, b[i].id) { assert IdsOfComments(a)[i] == IdsOfComments(b)[i]; }
  }

  lemma RequestNames(s: AgentState, p: PromptRequest, review: Review, next: nat)
    requires NamesOk(s, review, next) && EnqueueRequest(s, p, review, next).Ok?
    ensures var t := EnqueueRequest(s, p, review, next).value;
      AllNameable(next + Minted(s, review), t.submissions, t.comments)
  {
    hide EnqueueComment, EnqueueBatch;
    var t := EnqueueRequest(s, p, review, next).value;
    if IsRetry(p) {
      RetryNames(s, p, next);
    } else if p.comment.Some? {
      var frozen := if p.discussion.Some? then Some(p) else None;
      var q := EnqueueCommentGrows(s, review, p.comment.value, frozen, InputId(p, next));
      KnownIsNameable(s, review, next, p.comment.value);
      CommentIdsNameable(next, s.comments, t.comments);
    } else {
      var added, comments := EnqueueBatchGrows(s, p, review, next);
      CommentIdsNameable(next, s.comments, t.comments);
      forall i | 0 <= i < |added| ensures Nameable(next + Minted(s, review), added[i].comment) {
        if i < |comments| {
          assert added[i] == added[..|comments|][i];
          KnownIsNameable(s, review, next, comments[i]);
        }
      }
    }
  }

  lemma RetryNames(s: AgentState, p: PromptRequest, next: nat)
    requires p.retry.Some? && RetrySubmission(s, p.retry.value, Uuid(next)).Ok?
    requires AllNameable(next, s.submissions, s.comments)
    ensures var t := RetrySubmission(s, p.retry.value, Uuid(next)).value;
      AllNameable(next, t.submissions, t.comments)
  {
  }

  lemma PromptNames(cfg: Config, m: Machine, p: PromptRequest, review: Review, saved: bool)
    requires Sane(m) && NamesAhead(m) && NamesKnown(m, AcceptPrompt(p, review, saved))
    ensures NamesAhead(Prompted(cfg, m, p, review, saved).0)
  {
    hide EnqueueRequest, FindReceipt;
    var t := Prompted(cfg, m, p, review, saved).0;
    if Prompted(cfg, m, p, review, saved).1.Accepted? {
      var b := Bound(m.mem, cfg.fallback);
      RequestNames(b, p, review, m.next);
      var u := EnqueueRequest(b, p, review, m.next).value;
      assert t.mem.submissions == u.submissions && t.mem.comments == u.comments;
      assert t.disk == t.mem;
      assert Minted(b, review) == Minted(m.mem, review);
    }
  }

  lemma CommentingNames(m: Machine, id: Id, body: string, quote: string)
    requires NamesAhead(m) && Nameable(m.next, id)
    ensures NamesAhead(Commenting(m, id, body, quote))
  {
  }

  /** Every step but a prompt keeps the queue's comments and, but for a saved comment, the discussion's. */
  lemma QueueStays(cfg: Config, m: Machine, e: Event)
    requires Sane(m) && !e.AcceptPrompt?
    ensures |Step(cfg, m, e).mem.submissions| == |m.mem.submissions|
  {
    hide Sane, Drained, RunConnected, RunFinished, RunFailed, Cancelling, Switched, Moved, Receiving, Asking, Answering,
      Commenting, CrashAndReload;
    match e
    case Crash => CrashIsSane(cfg, m);
    case Drain(rendered, saved) => OthersAddNothing(cfg, m, rendered, saved, Prepare);
    case Connected(session) => RunsAddNothing(cfg, m, session, OutcomeCompleted);
    case Finish(outcome) => RunsAddNothing(cfg, m, "", outcome);
    case RunFail | Cancel => RunsAddNothing(cfg, m, "", OutcomeCompleted);
    case MoveOn(step) => OthersAddNothing(cfg, m, "", false, step);
    case AskPermission(request) => EventsAddNothing(cfg, m, request, None, "", false, Uuid(0), "");
    case AnswerPermission(request) => EventsAddNothing(cfg, m, request, None, "", false, Uuid(0), "");
    case TextEvent(name, text, replace) => EventsAddNothing(cfg, m, "", name, text, replace, Uuid(0), "");
    case SaveComment(id, body, quote) => EventsAddNothing(cfg, m, quote, None, body, false, id, "");
    case SwitchHarness(target) => EventsAddNothing(cfg, m, "", None, "", false, Uuid(0), target);
    case _ =>
  }

  lemma RunsAddNothing(cfg: Config, m: Machine, session: string, outcome: Outcome)
    ensures |RunConnected(cfg, m, session).mem.submissions| == |RunFinished(m, outcome).mem.submissions|
         == |RunFailed(m).mem.submissions| == |Cancelling(m).mem.submissions| == |m.mem.submissions|
  {
  }

  lemma OthersAddNothing(cfg: Config, m: Machine, rendered: string, saved: bool, step: MoveStep)
    ensures |Drained(cfg, m, rendered, saved).mem.submissions| == |Moved(cfg, m, step).mem.submissions| == |m.mem.submissions|
  {
  }

  lemma EventsAddNothing(cfg: Config, m: Machine, request: string, name: Option<string>, text: string, replace: bool, id: Id, target: string)
    ensures |Asking(m, request).mem.submissions| == |Answering(m, request).mem.submissions|
         == |Receiving(m, name, text, replace).mem.submissions| == |Commenting(m, id, text, request).mem.submissions|
         == |Switched(cfg, m, target).mem.submissions| == |m.mem.submissions|
  {
  }

  predicate SameDiscussion(m: Machine, t: Machine) {
    && (t.mem.comments == m.mem.comments || t.mem.comments == m.disk.comments)
    && (t.disk == m.disk || t.disk == t.mem)
  }

  lemma RunsSayNothing(cfg: Config, m: Machine, session: string, outcome: Outcome)
    ensures SameDiscussion(m, RunConnected(cfg, m, session)) && SameDiscussion(m, RunFinished(m, outcome))
    ensures SameDiscussion(m, RunFailed(m)) && SameDiscussion(m, Cancelling(m))
  {
  }

  lemma TextSaysNothing(m: Machine, request: string, name: Option<string>, text: string, replace: bool)
    ensures SameDiscussion(m, Receiving(m, name, text, replace)) && SameDiscussion(m, Save(m))
    ensures SameDiscussion(m, Asking(m, request)) && SameDiscussion(m, Answering(m, request))
  {
  }

  lemma MovesSayNothing(cfg: Config, m: Machine, step: MoveStep)
    ensures SameDiscussion(m, Moved(cfg, m, step))
  {
  }

  lemma StartsSayNothing(cfg: Config, m: Machine, rendered: string, saved: bool, target: string)
    ensures SameDiscussion(m, Drained(cfg, m, rendered, saved)) && SameDiscussion(m, Switched(cfg, m, target))
    ensures SameDiscussion(m, CrashAndReload(cfg, m)) && SameDiscussion(m, m.(retiring := false))
  {
  }

  lemma DiscussionStays(cfg: Config, m: Machine, e: Event)
    requires !e.AcceptPrompt? && !e.SaveComment?
    ensures SameDiscussion(m, Step(cfg, m, e))
  {
    hide SameDiscussion, Drained, RunConnected, RunFinished, RunFailed, Cancelling, Switched, Moved, Receiving, Asking,
      Answering, CrashAndReload, Save;
    match e
    case Drain(rendered, saved) => StartsSayNothing(cfg, m, rendered, saved, "");
    case Connected(session) => RunsSayNothing(cfg, m, session, OutcomeCompleted);
    case Finish(outcome) => RunsSayNothing(cfg, m, "", outcome);
    case RunFail | Cancel => RunsSayNothing(cfg, m, "", OutcomeCompleted);
    case Retired | Crash => StartsSayNothing(cfg, m, "", false, "");
    case Flush => TextSaysNothing(m, "", None, "", false);
    case AskPermission(request) => TextSaysNothing(m, request, None, "", false);
    case AnswerPermission(request) => TextSaysNothing(m, request, None, "", false);
    case TextEvent(name, text, replace) => TextSaysNothing(m, "", name, text, replace);
    case SwitchHarness(target) => StartsSayNothing(cfg, m, "", false, target);
    case MoveOn(step) => MovesSayNothing(cfg, m, step);
  }

  lemma SameComments(a: seq<Submission>, b: seq<Submission>)
    requires |a| == |b| && AgentLedger.InputsKept(a, b)
    ensures forall i :: 0 <= i < |a| ==> a[i].comment == b[i].comment
  {
    forall i | 0 <= i < |a| ensures a[i].comment == b[i].comment {
      assert AgentLedger.InputPart(a[i]).comment == a[i].comment && AgentLedger.InputPart(b[i]).comment == b[i].comment;
    }
  }

  /** Over one step the names stay ahead, and comments stay distinct exactly when the step is no collision. */
  lemma StepKeepsComments(cfg: Config, m: Machine, e: Event)
    requires Sane(m) && AgentLedger.LedgerOk(cfg, m) && NamesAhead(m) && NamesKnown(m, e)
    ensures NamesAhead(Step(cfg, m, e))
    ensures DistinctComments(m.mem.submissions) ==> (DistinctComments(Step(cfg, m, e).mem.submissions) <==> !Collides(cfg, m, e))
    ensures !DistinctComments(m.mem.submissions) ==> !DistinctComments(Step(cfg, m, e).mem.submissions)
  {
    hide Sane, AgentLedger.LedgerOk, NamesAhead, Step, DistinctComments, Collides, NamesKnown, AgentLedger.InputsKept;
    var t := Step(cfg, m, e);
    StepIsSane(cfg, m, e);
    AgentLedger.StepKeepsLedger(cfg, m, e);
    KeptInputs(m.mem.submissions, t.mem.submissions);
    if e.AcceptPrompt? {
      AgentLedger.StepOfPrompt(cfg, m, e.prompt, e.review, e.saved);
      PromptStepNames(cfg, m, e);
      if DistinctComments(m.mem.submissions) { PromptComments(cfg, m, e.prompt, e.review, e.saved); }
    } else {
      QueueStays(cfg, m, e);
      SameComments(m.mem.submissions, t.mem.submissions);
      SameDistinct(m.mem.submissions, t.mem.submissions);
      NoCollision(cfg, m, e);
      OtherNames(cfg, m, e);
    }
  }

  lemma PromptStepNames(cfg: Config, m: Machine, e: Event)
    requires Sane(m) && NamesAhead(m) && NamesKnown(m, e) && e.AcceptPrompt?
    ensures NamesAhead(Prompted(cfg, m, e.prompt, e.review, e.saved).0)
  {
    assert e == AcceptPrompt(e.prompt, e.review, e.saved);
    PromptNames(cfg, m, e.prompt, e.review, e.saved);
  }

  lemma NoCollision(cfg: Config, m: Machine, e: Event)
    requires !e.AcceptPrompt?
    ensures !Collides(cfg, m, e)
  {
  }

  lemma SameDistinct(a: seq<Submission>, b: seq<Submission>)
    requires |a| == |b| && forall i :: 0 <= i < |a| ==> a[i].comment == b[i].comment
    ensures DistinctComments(a) <==> DistinctComments(b)
  {
  }

  /** What the queue once carried twice it always does. */
  lemma KeptInputs(a: seq<Submission>, b: seq<Submission>)
    requires AgentLedger.InputsKept(a, b)
    ensures !DistinctComments(a) ==> !DistinctComments(b)
  {
    if !DistinctComments(a) {
      var i, j :| 0 <= i < j < |a| && a[i].comment == a[j].comment;
      assert AgentLedger.InputPart(a[i]) == AgentLedger.InputPart(b[i]) && AgentLedger.InputPart(a[j]) == AgentLedger.InputPart(b[j]);
      assert b[i].comment == AgentLedger.InputPart(b[i]).comment && b[j].comment == AgentLedger.InputPart(b[j]).comment;
      assert b[i].comment == b[j].comment;
    }
  }

  lemma OtherNames(cfg: Config, m: Machine, e: Event)
    requires Sane(m) && NamesAhead(m) && NamesKnown(m, e) && !e.AcceptPrompt?
    requires Sane(Step(cfg, m, e)) && |Step(cfg, m, e).mem.submissions| == |m.mem.submissions|
    requires forall i :: 0 <= i < |m.mem.submissions| ==> Step(cfg, m, e).mem.submissions[i].comment == m.mem.submissions[i].comment
    ensures NamesAhead(Step(cfg, m, e))
  {
    if e.SaveComment? {
      CommentingNames(m, e.comment, e.body, e.quote);
    } else {
      var t := Step(cfg, m, e);
      NextGrows(cfg, m, e);
      DiscussionStays(cfg, m, e);
      SavedComments(t);
      hide Step, NamesKnown, Nameable;
      NameableLater(m.next, t.next, m.mem.submissions, m.mem.comments);
      NameableLater(m.next, t.next, m.disk.submissions, m.disk.comments);
      assert AllNameable(t.next, t.mem.submissions, t.mem.comments);
      hide Sane;
    }
  }

  /** What the disk has is what memory has, comment for comment. */
  lemma SavedComments(m: Machine)
    requires Sane(m)
    ensures |m.disk.submissions| == |m.mem.submissions|
    ensures forall i :: 0 <= i < |m.mem.submissions| ==> m.disk.submissions[i].comment == m.mem.submissions[i].comment
  {
    forall i | 0 <= i < |m.mem.submissions| ensures m.disk.submissions[i].comment == m.mem.submissions[i].comment {
      assert Frozen(m.mem.submissions[i]).comment == m.mem.submissions[i].comment;
      assert Frozen(m.disk.submissions[i]).comment == m.disk.submissions[i].comment;
    }
  }

  lemma PromptComments(cfg: Config, m: Machine, p: PromptRequest, review: Review, saved: bool)
    requires Sane(m) && NamesAhead(m) && NamesKnown(m, AcceptPrompt(p, review, saved)) && DistinctComments(m.mem.submissions)
    ensures DistinctComments(Prompted(cfg, m, p, review, saved).0.mem.submissions) <==> !Collides(cfg, m, AcceptPrompt(p, review, saved))
  {
    AnswersExactly(cfg, m, p, review, saved);
    assert NamesOk(m.mem, review, m.next);
    hide Accept, FindReceipt, Acceptable, Admitted, NamesOk, MirrorsAComment, DistinctComments;
    AgentLedger.RefusalChangesNothing(cfg, m, p, review, saved);
    if Prompted(cfg, m, p, review, saved).1.Accepted? {
      CommentsStayDistinct(m.mem, p, review, m.next, cfg.fallback);
      assert Prompted(cfg, m, p, review, saved).0.mem.submissions == Accept(m.mem, p, review, m.next, cfg.fallback).value.submissions;
    }
  }

  ghost predicate NamesKnownInRun(cfg: Config, m: Machine, es: seq<Event>)
    decreases es
  {
    es == [] || (NamesKnown(m, es[0]) && NamesKnownInRun(cfg, Step(cfg, m, es[0]), es[1..]))
  }

  ghost predicate NeverCollides(cfg: Config, m: Machine, es: seq<Event>)
    decreases es
  {
    es == [] || (!Collides(cfg, m, es[0]) && NeverCollides(cfg, Step(cfg, m, es[0]), es[1..]))
  }

  /** Over every run, crashes, reloads and rollbacks included, no comment is submitted twice if and only if no
      accepted prompt mirrors a comment already in the queue. */
  lemma {:induction false} CommentsStayDistinctInRuns(cfg: Config, m: Machine, es: seq<Event>)
    requires Sane(m) && AgentLedger.LedgerOk(cfg, m) && NamesAhead(m) && NamesKnownInRun(cfg, m, es)
    ensures DistinctComments(m.mem.submissions) ==>
      (DistinctComments(Steps(cfg, m, es).mem.submissions) <==> NeverCollides(cfg, m, es))
    ensures !DistinctComments(m.mem.submissions) ==> !DistinctComments(Steps(cfg, m, es).mem.submissions)
    decreases es
  {
    if es != [] {
      hide Sane, AgentLedger.LedgerOk, NamesAhead, Step, DistinctComments, Collides, NamesKnown;
      StepIsSane(cfg, m, es[0]);
      AgentLedger.StepKeepsLedger(cfg, m, es[0]);
      StepKeepsComments(cfg, m, es[0]);
      CommentsStayDistinctInRuns(cfg, Step(cfg, m, es[0]), es[1..]);
    }
  }

  /** From a new Thread. */
  lemma NoCommentIsSubmittedTwice(cfg: Config, es: seq<Event>)
    requires NamesKnownInRun(cfg, START, es)
    ensures DistinctComments(Steps(cfg, START, es).mem.submissions) <==> NeverCollides(cfg, START, es)
  {
    StartIsLedger(cfg);
    CommentsStayDistinctInRuns(cfg, START, es);
  }

  lemma StartIsLedger(cfg: Config)
    ensures Sane(START) && AgentLedger.LedgerOk(cfg, START)
  {
    assert SettleAll([], []) == [];
  }
}
