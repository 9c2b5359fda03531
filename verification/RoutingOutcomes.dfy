/**
 * What the daemon's routing does get done (packages/daemon/src/api.ts, harness-state-store.ts): what every step
 * makes of every Thread, that no current Message is left unqueued, and that an approved plan gets its retry.
 */
module RoutingOutcomes {
  import opened Common
  import opened HarnessState
  import opened ApprovedRetry

  // ---- Threads ----

  predicate Sends(d: Daemon, e: Event, thread: string) {
    (e.Send? || e.CrashedSend?) && e.thread == thread && thread in d.threads && !d.threads[thread].resolved
  }

  predicate Revises(d: Daemon, e: Event, thread: string) {
    e.Revise? && e.thread == thread && thread in d.threads
  }

  /** Only a diff that is still open follows its working tree. */
  predicate Refreshes(d: Daemon, e: Event, thread: string) {
    e.Refresh? && e.thread == thread && thread in d.threads && !d.threads[thread].resolved && !d.threads[thread].plan
  }

  predicate Creates(d: Daemon, e: Event, thread: string) {
    e.Create? && e.thread == thread && thread !in d.created
  }

  /** What a step makes of one Thread that was there. */
  ghost predicate ThreadBecomes(d: Daemon, e: Event, thread: string, t: Daemon)
    requires thread in d.threads
  {
    if e == Delete(thread) then thread !in t.threads
    else
      && thread in t.threads
      && var a, b := d.threads[thread], t.threads[thread];
      && b.plan == a.plan
      && (if Sends(d, e, thread) then
            && b.content == a.content && (b.resolved <==> e.verdict != Commented)
            && b.message.Some? && b.message.value.verdict == e.verdict && b.message.value.content == a.content
            && b.message.value.id >= d.next
          else if Revises(d, e, thread) then b.content == e.content && !b.resolved && b.message.None?
          else if Refreshes(d, e, thread) then b == a.(content := e.content)
          else b == a)
  }

  /** The same for a Thread that may be new. */
  ghost predicate ThreadFits(d: Daemon, e: Event, x: string, t: Daemon) {
    && (x in d.threads ==> ThreadBecomes(d, e, x, t))
    && (x !in d.threads && x in t.threads ==> Creates(d, e, x))
    && (Creates(d, e, x) ==> x in t.threads && t.threads[x] == Thread(e.plan, e.content, false, None))
  }

  ghost predicate ThreadsBecome(d: Daemon, e: Event, t: Daemon) {
    forall x :: ThreadFits(d, e, x, t)
  }

  predicate Quiet(e: Event) {
    e.BindSession? || e.CrashedBind? || e.Ack? || e.ConsumeRetry? || e.Restart?
  }

  lemma QuietThreads(d: Daemon, e: Event, t: Daemon)
    requires Quiet(e) && t.threads == d.threads
    ensures ThreadsBecome(d, e, t)
  {
  }

  lemma SentThreads(d: Daemon, e: Event, t: Daemon)
    requires e.Send? || e.CrashedSend?
    requires t.threads == if Open(d, e.thread) then Written(d, e.thread, e.verdict).threads else d.threads
    ensures ThreadsBecome(d, e, t)
  {
  }

  lemma EditedThread(d: Daemon, e: Event, x: string)
    requires (e.Create? || e.Revise? || e.Refresh? || e.Delete?) && (x in d.threads ==> x in d.created)
    ensures ThreadFits(d, e, x, Step(d, e))
  {
    hide DeleteThread;
  }

  lemma EditedThreads(d: Daemon, e: Event)
    requires (e.Create? || e.Revise? || e.Refresh? || e.Delete?) && ThreadsOk(d)
    ensures ThreadsBecome(d, e, Step(d, e))
  {
    hide Step, ThreadFits;
    forall x
      ensures ThreadFits(d, e, x, Step(d, e))
    {
      EditedThread(d, e, x);
    }
  }

  /** Every step, crashes and restarts included: a Thread is only created, sent on, revised, refreshed or deleted by
      the step that says so and under its guard; a Message has the verdict it was sent with, the content of the
      moment and a new identity, and closes the review unless it only comments. */
  lemma ThreadsExactly(d: Daemon, e: Event)
    requires Sound(d)
    ensures ThreadsBecome(d, e, Step(d, e))
  {
    var t := Step(d, e);
    hide Bound, Reconciled, ReconciledAll, Consumed, BindingsOk, GrantsOk, ThreadsOk, ThreadsBecome, Written;
    match e
    case BindSession(thread, harness, session) =>
      BoundThreads(d, thread, harness, session);
      ReconcileKeeps(Bound(d, thread, harness, session), thread);
      QuietThreads(d, e, t);
    case CrashedBind(thread, harness, session, order) =>
      BoundThreads(d, thread, harness, session);
      ReconcileAllKeeps(Bound(d, thread, harness, session), order);
      QuietThreads(d, e, t);
    case Send(thread, verdict) =>
      if Open(d, thread) { ReconcileKeeps(Written(d, thread, verdict), thread); }
      SentThreads(d, e, t);
    case CrashedSend(thread, verdict, order) =>
      if Open(d, thread) { ReconcileAllKeeps(Written(d, thread, verdict), order); }
      SentThreads(d, e, t);
    case Restart(order) =>
      ReconcileAllKeeps(d, order);
      QuietThreads(d, e, t);
    case ConsumeRetry(binding, message, content) =>
      ConsumeKeepsThreads(d, binding, message, content);
      QuietThreads(d, e, t);
    case Ack(delivery) => QuietThreads(d, e, t);
    case _ => EditedThreads(d, e);
  }

  lemma BoundThreads(d: Daemon, thread: string, harness: string, session: string)
    ensures var t := Bound(d, thread, harness, session);
      t.threads == d.threads && t.next >= d.next && t.grants == d.grants && t.routing == Bind(d.routing, thread, harness, session, d.next)
  {
  }

  lemma ConsumeKeepsThreads(d: Daemon, binding: nat, message: nat, content: string)
    ensures Consumed(d, binding, message, content).threads == d.threads
    ensures Consumed(d, binding, message, content).routing.deliveries == d.routing.deliveries
  {
    hide Deserves;
  }

  /** Reconciling only ever adds a delivery at the end. */
  lemma ReconcileKeeps(d: Daemon, thread: string)
    ensures var t := Reconciled(d, thread);
      && t.threads == d.threads && t.created == d.created && t.grants == d.grants && t.next >= d.next
      && t.routing.bindings == d.routing.bindings && d.routing.deliveries <= t.routing.deliveries
      && (IdsBelow(d) ==> IdsBelow(t))
  {
    hide Submitter, PairIndex;
  }

  lemma {:induction false} ReconcileAllKeeps(d: Daemon, order: seq<string>)
    ensures var t := ReconciledAll(d, order);
      && t.threads == d.threads && t.created == d.created && t.grants == d.grants && t.next >= d.next
      && t.routing.bindings == d.routing.bindings && d.routing.deliveries <= t.routing.deliveries
      && (IdsBelow(d) ==> IdsBelow(t))
  {
    if order != [] {
      hide Reconciled, IdsBelow;
      ReconcileAllKeeps(d, order[..|order| - 1]);
      ReconcileKeeps(ReconciledAll(d, order[..|order| - 1]), order[|order| - 1]);
    }
  }

  // ---- sessions ----

  /** A session that is bound, interrupted or not, is bound to the Thread, once. */
  lemma BoundSessions(d: Daemon, e: Event)
    requires Sound(d) && (e.BindSession? || e.CrashedBind?) && e.thread in d.threads
    ensures var t := Step(d, e).routing.bindings;
      && (exists n :: 0 <= n < |t| && Names(t[n], e.thread, e.harness, e.session))
      && (if exists n :: 0 <= n < |d.routing.bindings| && Names(d.routing.bindings[n], e.thread, e.harness, e.session)
          then t == d.routing.bindings
          else |t| == |d.routing.bindings| + 1 && t[..|d.routing.bindings|] == d.routing.bindings && t[|d.routing.bindings|].retried.None?)
  {
    hide Reconciled, ReconciledAll, BindingsOk, ThreadsOk, GrantsOk;
    var b := Bound(d, e.thread, e.harness, e.session);
    BindExactly(d.routing, e.thread, e.harness, e.session, d.next);
    BoundThreads(d, e.thread, e.harness, e.session);
    if e.BindSession? { ReconcileKeeps(b, e.thread); } else { ReconcileAllKeeps(b, e.order); }
  }

  ghost predicate DistinctSessions(bindings: seq<Binding>) {
    forall i, j :: 0 <= i < j < |bindings| ==>
      !(bindings[i].thread == bindings[j].thread && bindings[i].harness == bindings[j].harness && bindings[i].session == bindings[j].session)
  }

  ghost predicate BoundOnce(d: Daemon) {
    DistinctSessions(d.routing.bindings)
  }

  lemma MoreBoundOnce(d: Daemon, thread: string, harness: string, session: string)
    requires BoundOnce(d)
    ensures BoundOnce(Bound(d, thread, harness, session))
  {
    BindExactly(d.routing, thread, harness, session, d.next);
  }

  lemma {:induction false} WithoutBoundOnce(bindings: seq<Binding>, thread: string)
    requires DistinctSessions(bindings)
    ensures DistinctSessions(BindingsWithout(bindings, thread))
  {
    if bindings != [] {
      var n := |bindings| - 1;
      WithoutBoundOnce(bindings[..n], thread);
      BoundExactly(bindings[..n], thread);
      var before, left := BindingsWithout(bindings[..n], thread), BindingsWithout(bindings, thread);
      forall i | 0 <= i < |before| ensures exists k :: 0 <= k < n && bindings[k] == before[i] {
        assert before[i] in before;
      }
      assert bindings[n].thread == thread ==> left == before;
    }
  }

  lemma StepBindsOnce(d: Daemon, e: Event)
    requires BoundOnce(d)
    ensures BoundOnce(Step(d, e))
  {
    hide Bound, Reconciled, ReconciledAll, Consumed, DistinctSessions;
    match e
    case BindSession(thread, harness, session) =>
      if thread in d.threads { MoreBoundOnce(d, thread, harness, session); ReconcileKeeps(Bound(d, thread, harness, session), thread); }
    case Send(thread, verdict) => if Open(d, thread) { ReconcileKeeps(Written(d, thread, verdict), thread); }
    case Restart(order) => ReconcileAllKeeps(d, order);
    case CrashedBind(thread, harness, session, order) =>
      if thread in d.threads { MoreBoundOnce(d, thread, harness, session); ReconcileAllKeeps(Bound(d, thread, harness, session), order); }
    case CrashedSend(thread, verdict, order) => if Open(d, thread) { ReconcileAllKeeps(Written(d, thread, verdict), order); }
    case Delete(thread) => WithoutBoundOnce(d.routing.bindings, thread);
    case ConsumeRetry(binding, message, content) => ConsumeBindsOnce(d, binding, message, content);
    case _ =>
  }

  lemma ConsumeBindsOnce(d: Daemon, binding: nat, message: nat, content: string)
    requires BoundOnce(d)
    ensures BoundOnce(Consumed(d, binding, message, content))
  {
    hide Deserves;
  }

  /** Over any run, a session is bound to a Thread at most once. */
  lemma {:induction false} SessionsAreBoundOnce(d: Daemon, es: seq<Event>)
    requires BoundOnce(d)
    ensures BoundOnce(Steps(d, es))
    decreases es
  {
    if es != [] {
      hide BoundOnce, Step;
      StepBindsOnce(d, es[0]);
      SessionsAreBoundOnce(Step(d, es[0]), es[1..]);
    }
  }

  // ---- no current Message is left unqueued ----

  /** A restart visits every Thread there is. */
  ghost predicate Covers(d: Daemon, order: seq<string>) {
    forall t :: t in d.threads ==> t in order
  }

  /** Restarts, the ones after a crash included, visit every Thread. */
  ghost predicate Thorough(d: Daemon, e: Event) {
    && (e.Restart? ==> Covers(d, e.order))
    && (e.CrashedBind? ==> Covers(d, e.order))
    && (e.CrashedSend? ==> Covers(d, e.order))
  }

  ghost predicate AllThorough(d: Daemon, es: seq<Event>)
    decreases es
  {
    es == [] || (Thorough(d, es[0]) && AllThorough(Step(d, es[0]), es[1..]))
  }

  /** Whether some delivery carries this Message to this binding. */
  predicate Carries(deliveries: seq<Delivery>, binding: nat, message: nat) {
    exists i :: 0 <= i < |deliveries| && deliveries[i].binding == binding && deliveries[i].message == message
  }

  /** The current Message of the Thread is queued for the first session that follows it. */
  predicate IsQueued(d: Daemon, thread: string) {
    var n := Submitter(d.routing.bindings, thread);
    thread in d.threads && d.threads[thread].message.Some? && n < |d.routing.bindings| ==>
      Carries(d.routing.deliveries, d.routing.bindings[n].id, d.threads[thread].message.value.id)
  }

  ghost predicate EverythingQueued(d: Daemon) {
    forall t :: t in d.threads ==> IsQueued(d, t)
  }

  lemma ReconcileQueues(d: Daemon, thread: string)
    ensures thread in d.threads ==> IsQueued(Reconciled(d, thread), thread)
    ensures forall t :: IsQueued(d, t) ==> IsQueued(Reconciled(d, thread), t)
  {
    var r := Reconciled(d, thread);
    if thread in d.threads && d.threads[thread].message.Some? {
      var n := Submitter(d.routing.bindings, thread);
      if n < |d.routing.bindings| {
        EnqueueExactly(d.routing, d.routing.bindings[n].id, d.threads[thread].message.value.id, d.next);
        assert Carries(r.routing.deliveries, d.routing.bindings[n].id, d.threads[thread].message.value.id);
      }
    }
    ReconcileKeeps(d, thread);
    forall t | IsQueued(d, t) ensures IsQueued(r, t) { PrefixQueues(d, r, t); }
  }

  lemma PrefixQueues(d: Daemon, r: Daemon, t: string)
    requires IsQueued(d, t) && r.threads == d.threads && r.routing.bindings == d.routing.bindings && d.routing.deliveries <= r.routing.deliveries
    ensures IsQueued(r, t)
  {
    var n := Submitter(d.routing.bindings, t);
    if t in d.threads && d.threads[t].message.Some? && n < |d.routing.bindings| {
      var i :| 0 <= i < |d.routing.deliveries| && d.routing.deliveries[i].binding == d.routing.bindings[n].id
        && d.routing.deliveries[i].message == d.threads[t].message.value.id;
      assert r.routing.deliveries[i] == d.routing.deliveries[i];
    }
  }

  lemma {:induction false} ReconcileAllQueues(d: Daemon, order: seq<string>)
    ensures forall t :: t in order && t in d.threads ==> IsQueued(ReconciledAll(d, order), t)
    ensures forall t :: IsQueued(d, t) ==> IsQueued(ReconciledAll(d, order), t)
  {
    if order != [] {
      hide Reconciled, IsQueued;
      var n := |order| - 1;
      ReconcileAllQueues(d, order[..n]);
      ReconcileAllKeeps(d, order[..n]);
      ReconcileQueues(ReconciledAll(d, order[..n]), order[n]);
      assert order == order[..n] + [order[n]];
    }
  }

  /** Steps that leave this Thread's Message, its first session and the deliveries of others where they were. */
  lemma StaysQueued(d: Daemon, t: Daemon, thread: string)
    requires thread in d.threads ==> IsQueued(d, thread)
    requires thread in t.threads ==> t.threads[thread].message.None? || (thread in d.threads && t.threads[thread].message == d.threads[thread].message)
    requires var n, m := Submitter(d.routing.bindings, thread), Submitter(t.routing.bindings, thread);
      m < |t.routing.bindings| ==> n < |d.routing.bindings| && t.routing.bindings[m].id == d.routing.bindings[n].id
    requires var n := Submitter(d.routing.bindings, thread);
      n < |d.routing.bindings| ==> forall m :: Carries(d.routing.deliveries, d.routing.bindings[n].id, m) ==>
        Carries(t.routing.deliveries, d.routing.bindings[n].id, m)
    ensures thread in t.threads ==> IsQueued(t, thread)
  {
  }

  lemma DeleteStaysQueued(d: Daemon, thread: string, other: string)
    requires Sound(d) && other != thread && other in d.threads && IsQueued(d, other)
    ensures IsQueued(Deleted(d, thread), other)
  {
    var t := Deleted(d, thread);
    OtherSubmitters(d.routing.bindings, thread, other);
    var n := Submitter(d.routing.bindings, other);
    if n < |d.routing.bindings| {
      var b := d.routing.bindings[n];
      forall m | Carries(d.routing.deliveries, b.id, m) ensures Carries(t.routing.deliveries, b.id, m) {
        var i :| 0 <= i < |d.routing.deliveries| && d.routing.deliveries[i].binding == b.id && d.routing.deliveries[i].message == m;
        LeftExactly(d.routing.deliveries, d.routing.bindings, thread);
        assert !Belongs(d.routing.bindings, b.id, thread);
        assert d.routing.deliveries[i] in t.routing.deliveries;
      }
    }
    hide IsQueued, Carries;
    StaysQueued(d, t, other);
  }

  lemma AckStaysQueued(d: Daemon, delivery: nat, thread: string)
    requires thread in d.threads && IsQueued(d, thread)
    ensures IsQueued(Step(d, Ack(delivery)), thread)
  {
    var t := Step(d, Ack(delivery));
    forall b, m | Carries(d.routing.deliveries, b, m) ensures Carries(t.routing.deliveries, b, m) {
      var i :| 0 <= i < |d.routing.deliveries| && d.routing.deliveries[i].binding == b && d.routing.deliveries[i].message == m;
      assert t.routing.deliveries[i].binding == b && t.routing.deliveries[i].message == m;
    }
    hide IsQueued, Carries;
    StaysQueued(d, t, thread);
  }

  lemma ConsumeStaysQueued(d: Daemon, binding: nat, message: nat, content: string, thread: string)
    requires thread in d.threads && IsQueued(d, thread)
    ensures IsQueued(Consumed(d, binding, message, content), thread)
  {
    var t := Consumed(d, binding, message, content);
    ConsumeKeepsThreads(d, binding, message, content);
    ConsumeKeepsIds(d, binding, message, content);
    SubmitterIgnoresRetries(d.routing.bindings, t.routing.bindings, thread);
    hide IsQueued, Carries, Consumed;
    StaysQueued(d, t, thread);
  }

  lemma ConsumeKeepsIds(d: Daemon, binding: nat, message: nat, content: string)
    ensures var a, b := d.routing.bindings, Consumed(d, binding, message, content).routing.bindings;
      |a| == |b| && forall i :: 0 <= i < |a| ==> b[i].id == a[i].id && b[i].thread == a[i].thread
  {
    hide Deserves;
  }

  lemma {:induction false} StepQueues(d: Daemon, e: Event)
    requires Sound(d) && EverythingQueued(d) && Thorough(d, e)
    ensures EverythingQueued(Step(d, e))
  {
    hide IsQueued, Bound, Reconciled, ReconciledAll, Consumed, Deleted, BindingsOk, ThreadsOk, GrantsOk;
    var t := Step(d, e);
    match e
    case BindSession(thread, harness, session) => if thread in d.threads { BindQueues(d, thread, harness, session); }
    case Send(thread, verdict) => if Open(d, thread) { SendQueues(d, thread, verdict); }
    case Restart(order) =>
      ReconcileAllQueues(d, order);
      ReconcileAllKeeps(d, order);
    case CrashedBind(thread, harness, session, order) =>
      if thread in d.threads {
        BoundThreads(d, thread, harness, session);
        ReconcileAllQueues(Bound(d, thread, harness, session), order);
        ReconcileAllKeeps(Bound(d, thread, harness, session), order);
      }
    case CrashedSend(thread, verdict, order) =>
      if Open(d, thread) {
        ReconcileAllQueues(Written(d, thread, verdict), order);
        ReconcileAllKeeps(Written(d, thread, verdict), order);
        assert Written(d, thread, verdict).threads.Keys == d.threads.Keys;
      }
    case Delete(thread) =>
      forall x | x in t.threads ensures IsQueued(t, x) { if thread in d.threads { DeletedThreads(d, thread, x); DeleteStaysQueued(d, thread, x); } }
    case Ack(delivery) => forall x | x in t.threads ensures IsQueued(t, x) { AckStaysQueued(d, delivery, x); }
    case ConsumeRetry(binding, message, content) =>
      ConsumeKeepsThreads(d, binding, message, content);
      forall x | x in t.threads ensures IsQueued(t, x) { ConsumeStaysQueued(d, binding, message, content, x); }
    case _ => forall x | x in t.threads ensures IsQueued(t, x) { EditStaysQueued(d, e, x); }
  }

  lemma DeletedThreads(d: Daemon, thread: string, x: string)
    requires thread in d.threads && x in Deleted(d, thread).threads
    ensures x != thread && x in d.threads
  {
  }

  lemma EditStaysQueued(d: Daemon, e: Event, x: string)
    requires (e.Create? || e.Revise? || e.Refresh?) && (x in d.threads ==> IsQueued(d, x)) && x in Step(d, e).threads
    ensures IsQueued(Step(d, e), x)
  {
    hide IsQueued, Carries;
    StaysQueued(d, Step(d, e), x);
  }

  lemma BindQueues(d: Daemon, thread: string, harness: string, session: string)
    requires EverythingQueued(d) && thread in d.threads
    ensures EverythingQueued(Reconciled(Bound(d, thread, harness, session), thread))
  {
    var b := Bound(d, thread, harness, session);
    forall x | x in d.threads && x != thread ensures IsQueued(b, x) {
      assert IsQueued(d, x);
      if Submitter(d.routing.bindings, x) < |d.routing.bindings| { SubmitterStays(d.routing.bindings, b.routing.bindings, x); }
      hide IsQueued, Carries;
      StaysQueued(d, b, x);
    }
    hide IsQueued, Reconciled, Bound;
    BoundThreads(d, thread, harness, session);
    ReconcileQueues(b, thread);
    ReconcileKeeps(b, thread);
  }

  lemma SendQueues(d: Daemon, thread: string, verdict: Verdict)
    requires EverythingQueued(d) && thread in d.threads
    ensures EverythingQueued(Reconciled(Written(d, thread, verdict), thread))
  {
    var b := Written(d, thread, verdict);
    forall x | x in d.threads && x != thread ensures IsQueued(b, x) {
      assert IsQueued(d, x);
      hide IsQueued, Carries;
      StaysQueued(d, b, x);
    }
    hide IsQueued, Reconciled;
    ReconcileQueues(b, thread);
    ReconcileKeeps(b, thread);
  }

  /** Over any run whose restarts visit every Thread, wherever the daemon dies: after every step each Thread's
      current Message is queued for the first session that follows it. */
  lemma {:induction false} NothingStaysUnqueued(d: Daemon, es: seq<Event>)
    requires Sound(d) && EverythingQueued(d) && AllThorough(d, es)
    ensures EverythingQueued(Steps(d, es))
    decreases es
  {
    if es != [] {
      hide Sound, EverythingQueued, Step, Thorough;
      ApprovedRetry.StepIsSound(d, es[0]);
      StepQueues(d, es[0]);
      NothingStaysUnqueued(Step(d, es[0]), es[1..]);
    }
  }

  /** A restart that visits every Thread leaves nothing unqueued, whatever a crash had left. */
  lemma RestartsQueue(d: Daemon, order: seq<string>)
    requires Covers(d, order)
    ensures EverythingQueued(Step(d, Restart(order)))
  {
    hide IsQueued;
    ReconcileAllQueues(d, order);
    ReconcileAllKeeps(d, order);
  }

  // ---- an approved plan gets its retry ----

  /** Delivery identities are never used twice. */
  ghost predicate IdsBelow(d: Daemon) {
    forall i :: 0 <= i < |d.routing.deliveries| ==> d.routing.deliveries[i].id < d.next
  }

  lemma StepIdsBelow(d: Daemon, e: Event)
    requires IdsBelow(d)
    ensures IdsBelow(Step(d, e))
  {
    hide Reconciled, ReconciledAll, Deserves, Submitter;
    match e
    case BindSession(thread, harness, session) =>
      if thread in d.threads { ReconcileKeeps(Bound(d, thread, harness, session), thread); }
    case Send(thread, verdict) => if Open(d, thread) { ReconcileKeeps(Written(d, thread, verdict), thread); }
    case Restart(order) => ReconcileAllKeeps(d, order);
    case CrashedBind(thread, harness, session, order) =>
      if thread in d.threads { ReconcileAllKeeps(Bound(d, thread, harness, session), order); }
    case CrashedSend(thread, verdict, order) => if Open(d, thread) { ReconcileAllKeeps(Written(d, thread, verdict), order); }
    case Delete(thread) =>
      LeftExactly(d.routing.deliveries, d.routing.bindings, thread);
      var t := Step(d, e);
      forall i | 0 <= i < |t.routing.deliveries| ensures t.routing.deliveries[i].id < t.next {
        assert t.routing.deliveries[i] in t.routing.deliveries;
      }
    case _ =>
  }

  lemma {:induction false} RunsIdsBelow(d: Daemon, es: seq<Event>)
    requires IdsBelow(d)
    ensures IdsBelow(Steps(d, es))
    decreases es
  {
    if es != [] {
      hide IdsBelow, Step;
      StepIdsBelow(d, es[0]);
      RunsIdsBelow(Step(d, es[0]), es[1..]);
    }
  }

  /** What the approval queues: a new delivery of a new Message to the Thread's first session. */
  lemma ApprovalIsQueued(d: Daemon, thread: string) returns (message: nat, delivery: nat)
    requires Sound(d) && RoutedOnce(d) && IdsBelow(d) && thread in d.threads && !d.threads[thread].resolved
    requires Submitter(d.routing.bindings, thread) < |d.routing.bindings|
    ensures var t := Step(d, Send(thread, Approved));
      var b := d.routing.bindings[Submitter(d.routing.bindings, thread)].id;
      && t.routing == State(d.routing.bindings, d.routing.deliveries + [Delivery(delivery, b, message, false)])
      && t.threads == d.threads[thread := d.threads[thread].(message := Some(Message(message, Approved, d.threads[thread].content)), resolved := true)]
      && t.grants == d.grants && message >= d.next && delivery >= d.next
  {
    message, delivery := d.next, d.next + 1;
    var w := Written(d, thread, Approved);
    var b := d.routing.bindings[Submitter(d.routing.bindings, thread)].id;
    forall i | 0 <= i < |d.routing.deliveries| ensures d.routing.deliveries[i].message != message {
      assert Routed(d, d.routing.deliveries[i]);
    }
    hide Sound, RoutedOnce, IdsBelow;
    assert PairIndex(w.routing.deliveries, b, message) == |w.routing.deliveries|;
  }

  lemma AcknowledgingTheNewest(d: Daemon, delivery: nat)
    requires d.routing.deliveries != [] && d.routing.deliveries[|d.routing.deliveries| - 1].id == delivery
    requires forall i :: 0 <= i < |d.routing.deliveries| - 1 ==> d.routing.deliveries[i].id < delivery
    ensures var n := |d.routing.deliveries| - 1;
      Step(d, Ack(delivery)) == d.(routing := d.routing.(deliveries := d.routing.deliveries[n := d.routing.deliveries[n].(acknowledged := true)]))
  {
    assert DeliveryIndex(d.routing.deliveries, delivery) == |d.routing.deliveries| - 1;
  }

  /** In every state of every run in which a plan is open and a session follows it: once it is approved and the
      session acknowledges that Message, the session's request for its retry is granted, and any later one with the
      same Message is not. This holds for a plan approved, retried, revised and approved again just the same. */
  lemma ApprovedPlansAreRetriedOnce(es: seq<Event>, thread: string) returns (message: nat, delivery: nat)
    requires var d := Steps(FIRST, es);
      thread in d.threads && d.threads[thread].plan && !d.threads[thread].resolved && Submitter(d.routing.bindings, thread) < |d.routing.bindings|
    ensures var d := Steps(FIRST, es);
      var b, content := d.routing.bindings[Submitter(d.routing.bindings, thread)].id, d.threads[thread].content;
      var t := Step(Step(Step(d, Send(thread, Approved)), Ack(delivery)), ConsumeRetry(b, message, content));
      && t.grants == d.grants + [Grant(b, thread, message, content)]
      && forall c :: Step(t, ConsumeRetry(b, message, c)) == t
  {
    var d := Steps(FIRST, es);
    MessagesAreRoutedOnce(es);
    RunsRecord(FIRST, es);
    RunsIdsBelow(FIRST, es);
    message, delivery := ApprovalIsQueued(d, thread);
    RetryAfterApproval(d, thread, message, delivery);
  }

  lemma RetryAfterApproval(d: Daemon, thread: string, message: nat, delivery: nat)
    requires Sound(d) && RecordsOk(d) && IdsBelow(d) && thread in d.threads && d.threads[thread].plan && !d.threads[thread].resolved
    requires Submitter(d.routing.bindings, thread) < |d.routing.bindings|
    requires var t := Step(d, Send(thread, Approved));
      var b := d.routing.bindings[Submitter(d.routing.bindings, thread)].id;
      && t.routing == State(d.routing.bindings, d.routing.deliveries + [Delivery(delivery, b, message, false)])
      && t.threads == d.threads[thread := d.threads[thread].(message := Some(Message(message, Approved, d.threads[thread].content)), resolved := true)]
      && t.grants == d.grants && message >= d.next && delivery >= d.next
    ensures var b, content := d.routing.bindings[Submitter(d.routing.bindings, thread)].id, d.threads[thread].content;
      var t := Step(Step(Step(d, Send(thread, Approved)), Ack(delivery)), ConsumeRetry(b, message, content));
      && t.grants == d.grants + [Grant(b, thread, message, content)]
      && forall c :: Step(t, ConsumeRetry(b, message, c)) == t
  {
    var b, content := d.routing.bindings[Submitter(d.routing.bindings, thread)].id, d.threads[thread].content;
    var s := Step(d, Send(thread, Approved));
    var a := Step(s, Ack(delivery));
    var t := Step(a, ConsumeRetry(b, message, content));
    AcknowledgingTheNewest(s, delivery);
    var n := |d.routing.deliveries|;
    assert a.routing.deliveries[n] == Delivery(delivery, b, message, true);
    assert Approves(a, thread, b, message, content);
    OldGrantsAreOlder(d);
    RunOfTwo(d, thread, delivery);
    hide Approves, IdsBelow;
    GrantExactly(a, b, message, content);
    GrantsAreDeserved(a, ConsumeRetry(b, message, content));
    SubmitterHas(a, thread, b);
    ApprovedRetry.StepIsSound(a, ConsumeRetry(b, message, content));
    StepRecords(a, ConsumeRetry(b, message, content));
    forall c ensures Step(t, ConsumeRetry(b, message, c)) == t {
      GrantExactly(t, b, message, c);
      assert t.grants[|d.grants|].message == message;
    }
  }

  lemma OldGrantsAreOlder(d: Daemon)
    requires Sound(d)
    ensures forall k :: 0 <= k < |d.grants| ==> d.grants[k].message < d.next
  {
    forall k | 0 <= k < |d.grants| ensures d.grants[k].message < d.next { assert Spent(d, d.grants[k]); }
  }

  lemma RunOfTwo(d: Daemon, thread: string, delivery: nat)
    requires Sound(d) && RecordsOk(d)
    ensures var a := Step(Step(d, Send(thread, Approved)), Ack(delivery)); Sound(a) && RecordsOk(a)
  {
    hide Sound, RecordsOk, Step;
    var s := Step(d, Send(thread, Approved));
    ApprovedRetry.StepIsSound(d, Send(thread, Approved));
    StepRecords(d, Send(thread, Approved));
    ApprovedRetry.StepIsSound(s, Ack(delivery));
    StepRecords(s, Ack(delivery));
  }

  /** Bindings have distinct identities, so a Thread's first binding names the Thread. */
  lemma SubmitterHas(d: Daemon, thread: string, binding: nat)
    requires Sound(d)
    requires Submitter(d.routing.bindings, thread) < |d.routing.bindings| && d.routing.bindings[Submitter(d.routing.bindings, thread)].id == binding
    ensures forall x :: Submitter(d.routing.bindings, x) < |d.routing.bindings| && d.routing.bindings[Submitter(d.routing.bindings, x)].id == binding ==> x == thread
  {
  }
}
