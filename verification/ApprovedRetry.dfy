/**
 * The single-use retry of an approved plan (packages/daemon/src/api.ts, harness-state-store.ts): Threads,
 * their Messages and the routing state, over any run of creating, binding, sending, acknowledging, revising,
 * refreshing, consuming, deleting and restarting, with crashes between a Thread's write and the routing
 * state's, and between a new binding's and its first delivery's.
 */
module ApprovedRetry {
  import opened Common
  import opened HarnessState

  datatype Verdict = Approved | ChangesRequested | Commented

  /** `content` (history) is the artifact as it was when the Message was sent. */
  datatype Message = Message(id: nat, verdict: Verdict, content: string)

  datatype Thread = Thread(plan: bool, content: string, resolved: bool, message: Option<Message>)

  /** A retry that was granted. */
  datatype Grant = Grant(binding: nat, thread: string, message: nat, content: string)

  /** `created` and `grants` are history: Thread identities are never used twice. */
  datatype Daemon = Daemon(
    threads: map<string, Thread>, routing: State, next: nat, created: set<string>, grants: seq<Grant>)

  const FIRST := Daemon(map[], EMPTY, 0, {}, [])

  datatype Event =
    | Create(thread: string, plan: bool, content: string)
    | BindSession(thread: string, harness: string, session: string)
    | Send(thread: string, verdict: Verdict)
    | Ack(delivery: nat)
    | Revise(thread: string, content: string)
    | Refresh(thread: string, content: string)
    | ConsumeRetry(binding: nat, message: nat, content: string)
    | Delete(thread: string)
    | Restart(order: seq<string>)
    | CrashedBind(thread: string, harness: string, session: string, order: seq<string>)
    | CrashedSend(thread: string, verdict: Verdict, order: seq<string>)

  /** reconcileDeliveries: the current Message is queued for the Thread's first binding. */
  function Reconciled(d: Daemon, thread: string): Daemon {
    if thread !in d.threads || d.threads[thread].message.None? then d
    else
      var n := Submitter(d.routing.bindings, thread);
      if n == |d.routing.bindings| then d
      else d.(routing := Enqueue(d.routing, d.routing.bindings[n].id, d.threads[thread].message.value.id, d.next), next := d.next + 1)
  }

  function ReconciledAll(d: Daemon, order: seq<string>): Daemon {
    if order == [] then d else Reconciled(ReconciledAll(d, order[..|order| - 1]), order[|order| - 1])
  }

  function Created(d: Daemon, thread: string, plan: bool, content: string): Daemon {
    if thread in d.created then d
    else d.(threads := d.threads[thread := Thread(plan, content, false, None)], created := d.created + {thread})
  }

  function Bound(d: Daemon, thread: string, harness: string, session: string): Daemon {
    d.(routing := Bind(d.routing, thread, harness, session, d.next), next := d.next + 1)
  }

  /** The Thread's own write: the Message, and whether it closes the review. */
  function Written(d: Daemon, thread: string, verdict: Verdict): Daemon
    requires thread in d.threads
  {
    var t := d.threads[thread];
    d.(threads := d.threads[thread := t.(message := Some(Message(d.next, verdict, t.content)), resolved := !verdict.Commented?)],
       next := d.next + 1)
  }

  predicate Open(d: Daemon, thread: string) {
    thread in d.threads && !d.threads[thread].resolved
  }

  /** What harnessConsumeApprovedRetry demands before it asks the routing state. */
  predicate Deserves(d: Daemon, binding: nat, message: nat, content: string) {
    var n := BindingIndex(d.routing.bindings, binding);
    && n < |d.routing.bindings|
    && var thread := d.routing.bindings[n].thread;
    && thread in d.threads
    && var t := d.threads[thread];
    && t.plan && t.resolved && t.message.Some?
    && t.message.value.id == message && t.message.value.verdict.Approved? && t.content == content
    && d.routing.bindings[Submitter(d.routing.bindings, thread)].id == binding
    && Acknowledged(d.routing, binding, message)
  }

  function Consumed(d: Daemon, binding: nat, message: nat, content: string): Daemon {
    if !Deserves(d, binding, message, content) then d
    else
      var thread := d.routing.bindings[BindingIndex(d.routing.bindings, binding)].thread;
      var (routing, granted) := Consume(d.routing, binding, message);
      if granted then d.(routing := routing, grants := d.grants + [Grant(binding, thread, message, content)]) else d
  }

  /** deleteOrphanedThreadState, one Thread at a time */
  function Deleted(d: Daemon, thread: string): Daemon {
    d.(threads := d.threads - {thread}, routing := DeleteThread(d.routing, thread))
  }

  function Step(d: Daemon, e: Event): Daemon {
    match e
    case Create(thread, plan, content) => Created(d, thread, plan, content)
    case BindSession(thread, harness, session) =>
      if thread in d.threads then Reconciled(Bound(d, thread, harness, session), thread) else d
    case Send(thread, verdict) =>
      if Open(d, thread) then Reconciled(Written(d, thread, verdict), thread) else d
    case Ack(delivery) => d.(routing := Acknowledge(d.routing, delivery))
    case Revise(thread, content) =>
      if thread in d.threads
      then d.(threads := d.threads[thread := d.threads[thread].(content := content, resolved := false, message := None)])
      else d
    case Refresh(thread, content) =>
      if Open(d, thread) && !d.threads[thread].plan
      then d.(threads := d.threads[thread := d.threads[thread].(content := content)])
      else d
    case ConsumeRetry(binding, message, content) => Consumed(d, binding, message, content)
    case Delete(thread) => if thread in d.threads then Deleted(d, thread) else d
    case Restart(order) => ReconciledAll(d, order)
    // the first of the two writes, then the daemon dies and its restart visits the Threads in some order
    case CrashedBind(thread, harness, session, order) =>
      if thread in d.threads then ReconciledAll(Bound(d, thread, harness, session), order) else d
    case CrashedSend(thread, verdict, order) =>
      if Open(d, thread) then ReconciledAll(Written(d, thread, verdict), order) else d
  }

  function Steps(d: Daemon, es: seq<Event>): Daemon
    decreases es
  {
    if es == [] then d else Steps(Step(d, es[0]), es[1..])
  }

  // ---- what every step keeps ----

  ghost predicate BindingsOk(d: Daemon) {
    && (forall i :: 0 <= i < |d.routing.bindings| ==> d.routing.bindings[i].id < d.next && d.routing.bindings[i].thread in d.threads)
    && DistinctBindings(d.routing.bindings)
  }

  ghost predicate ThreadsOk(d: Daemon) {
    && (forall t :: t in d.threads ==> t in d.created)
    && (forall t :: t in d.threads && d.threads[t].message.Some? ==> d.threads[t].message.value.id < d.next)
    && (forall t, u :: t in d.threads && u in d.threads && t != u && d.threads[t].message.Some? && d.threads[u].message.Some? ==>
          d.threads[t].message.value.id != d.threads[u].message.value.id)
    && (forall t :: t in d.threads && d.threads[t].resolved ==>
          d.threads[t].message.Some? && d.threads[t].message.value.content == d.threads[t].content)
  }

  /** This grant is spent: as long as its Message is still the Thread's, the submitter's record says so. */
  predicate Spent(d: Daemon, g: Grant) {
    && g.message < d.next
    && (forall t :: t in d.threads && d.threads[t].message.Some? && d.threads[t].message.value.id == g.message ==>
          && t == g.thread
          && var n := Submitter(d.routing.bindings, t);
          n < |d.routing.bindings| && d.routing.bindings[n].id == g.binding && d.routing.bindings[n].retried == Some(g.message))
  }

  ghost predicate GrantsOk(d: Daemon) {
    && (forall i :: 0 <= i < |d.grants| ==> Spent(d, d.grants[i]))
    && (forall i, j :: 0 <= i < j < |d.grants| ==> d.grants[i].message != d.grants[j].message)
  }

  ghost predicate Sound(d: Daemon) {
    BindingsOk(d) && ThreadsOk(d) && GrantsOk(d)
  }

  /** Steps that leave every Message in place and every binding where and as it was, but for more at the end. */
  lemma MoreBindings(d: Daemon, t: Daemon)
    requires Sound(d) && t.grants == d.grants && d.next <= t.next
    requires BindingsOk(t) && ThreadsOk(t)
    requires d.routing.bindings <= t.routing.bindings
    requires forall x :: x in t.threads && t.threads[x].message.Some? ==>
      (x in d.threads && t.threads[x].message == d.threads[x].message) || t.threads[x].message.value.id >= d.next
    ensures Sound(t)
  {
    forall i | 0 <= i < |t.grants| ensures Spent(t, t.grants[i]) {
      var g := t.grants[i];
      assert Spent(d, g);
      forall x | x in t.threads && t.threads[x].message.Some? && t.threads[x].message.value.id == g.message
        ensures x == g.thread
        ensures var n := Submitter(t.routing.bindings, x);
          n < |t.routing.bindings| && t.routing.bindings[n].id == g.binding && t.routing.bindings[n].retried == Some(g.message)
      {
        SubmitterStays(d.routing.bindings, t.routing.bindings, x);
      }
    }
  }

  lemma SubmitterStays(a: seq<Binding>, b: seq<Binding>, thread: string)
    requires a <= b && Submitter(a, thread) < |a|
    ensures Submitter(b, thread) == Submitter(a, thread)
  {
    var n := Submitter(a, thread);
    assert b[n] == a[n];
    assert forall i :: 0 <= i < n ==> b[i] == a[i];
  }

  lemma ReconcileIsSound(d: Daemon, thread: string)
    requires Sound(d)
    ensures Sound(Reconciled(d, thread))
    ensures Reconciled(d, thread).routing.bindings == d.routing.bindings
    ensures Reconciled(d, thread).threads == d.threads && Reconciled(d, thread).grants == d.grants
  {
    MoreBindings(d, Reconciled(d, thread));
  }

  lemma {:induction false} ReconcileAllIsSound(d: Daemon, order: seq<string>)
    requires Sound(d)
    ensures Sound(ReconciledAll(d, order))
    ensures ReconciledAll(d, order).routing.bindings == d.routing.bindings
    ensures ReconciledAll(d, order).threads == d.threads && ReconciledAll(d, order).grants == d.grants
  {
    if order != [] {
      ReconcileAllIsSound(d, order[..|order| - 1]);
      ReconcileIsSound(ReconciledAll(d, order[..|order| - 1]), order[|order| - 1]);
    }
  }

  lemma BindIsSound(d: Daemon, thread: string, harness: string, session: string)
    requires Sound(d) && thread in d.threads
    ensures Sound(Bound(d, thread, harness, session))
  {
    MoreBindings(d, Bound(d, thread, harness, session));
  }

  lemma WriteIsSound(d: Daemon, thread: string, verdict: Verdict)
    requires Sound(d) && thread in d.threads
    ensures Sound(Written(d, thread, verdict))
  {
    MoreBindings(d, Written(d, thread, verdict));
  }

  lemma CreateIsSound(d: Daemon, thread: string, plan: bool, content: string)
    requires Sound(d)
    ensures Sound(Created(d, thread, plan, content))
  {
    CreatedFits(d, thread, plan, content);
    hide BindingsOk, ThreadsOk, Spent;
    MoreBindings(d, Created(d, thread, plan, content));
  }

  lemma CreatedFits(d: Daemon, thread: string, plan: bool, content: string)
    requires BindingsOk(d) && ThreadsOk(d)
    ensures BindingsOk(Created(d, thread, plan, content)) && ThreadsOk(Created(d, thread, plan, content))
  {
  }

  lemma ReviseIsSound(d: Daemon, thread: string, content: string)
    requires Sound(d)
    ensures Sound(Step(d, Revise(thread, content)))
  {
    MoreBindings(d, Step(d, Revise(thread, content)));
  }

  lemma RefreshIsSound(d: Daemon, thread: string, content: string)
    requires Sound(d)
    ensures Sound(Step(d, Refresh(thread, content)))
  {
    MoreBindings(d, Step(d, Refresh(thread, content)));
  }

  lemma AckIsSound(d: Daemon, delivery: nat)
    requires Sound(d)
    ensures Sound(Step(d, Ack(delivery)))
  {
    MoreBindings(d, Step(d, Ack(delivery)));
  }

  ghost predicate DistinctBindings(bindings: seq<Binding>) {
    forall i, j :: 0 <= i < j < |bindings| ==> bindings[i].id != bindings[j].id
  }

  lemma {:induction false} WithoutFacts(bindings: seq<Binding>, thread: string)
    ensures forall b :: b in BindingsWithout(bindings, thread) <==> b in bindings && b.thread != thread
    ensures DistinctBindings(bindings) ==> DistinctBindings(BindingsWithout(bindings, thread))
  {
    if bindings != [] {
      var n := |bindings| - 1;
      WithoutFacts(bindings[..n], thread);
      assert bindings == bindings[..n] + [bindings[n]];
      var before := BindingsWithout(bindings[..n], thread);
      forall i | 0 <= i < |before| ensures before[i] in bindings[..n] { assert before[i] in before; }
    }
  }

  /** Deleting one Thread's bindings leaves every other Thread's submitter in place. */
  lemma {:induction false} OtherSubmitters(bindings: seq<Binding>, thread: string, other: string)
    requires other != thread
    ensures var left := BindingsWithout(bindings, thread);
      var n, m := Submitter(bindings, other), Submitter(left, other);
      && (n < |bindings| <==> m < |left|)
      && (n < |bindings| ==> left[m] == bindings[n])
  {
    if bindings != [] {
      var k := |bindings| - 1;
      OtherSubmitters(bindings[..k], thread, other);
      var before, left := BindingsWithout(bindings[..k], thread), BindingsWithout(bindings, thread);
      assert bindings == bindings[..k] + [bindings[k]];
      SubmitterOfMore(bindings[..k], bindings[k], other);
      if bindings[k].thread != thread { SubmitterOfMore(before, bindings[k], other); } else { assert left == before; }
    }
  }

  lemma SubmitterOfMore(bindings: seq<Binding>, b: Binding, thread: string)
    ensures var n := Submitter(bindings, thread);
      Submitter(bindings + [b], thread) == if n < |bindings| then n else if b.thread == thread then |bindings| else |bindings| + 1
  {
    var all := bindings + [b];
    assert forall i :: 0 <= i < |bindings| ==> all[i] == bindings[i];
    assert all[|bindings|] == b;
  }

  lemma DeleteIsSound(d: Daemon, thread: string)
    requires Sound(d)
    ensures Sound(Deleted(d, thread))
  {
    var t := Deleted(d, thread);
    WithoutFacts(d.routing.bindings, thread);
    forall i | 0 <= i < |t.routing.bindings| ensures t.routing.bindings[i].id < t.next && t.routing.bindings[i].thread in t.threads {
      assert t.routing.bindings[i] in t.routing.bindings;
    }
    forall i | 0 <= i < |t.grants| ensures Spent(t, t.grants[i]) {
      var g := t.grants[i];
      assert Spent(d, g);
      if g.thread != thread { OtherSubmitters(d.routing.bindings, thread, g.thread); }
    }
  }

  lemma ConsumeIsSound(d: Daemon, binding: nat, message: nat, content: string)
    requires Sound(d)
    ensures Sound(Consumed(d, binding, message, content))
  {
    var u := Consumed(d, binding, message, content);
    if u != d {
      var n := BindingIndex(d.routing.bindings, binding);
      var thread := d.routing.bindings[n].thread;
      assert Submitter(d.routing.bindings, thread) == n;
      GrantedOnce(d, u, n, message, content);
    }
  }

  lemma GrantedOnce(d: Daemon, u: Daemon, n: nat, message: nat, content: string)
    requires Sound(d) && n < |d.routing.bindings| && Submitter(d.routing.bindings, d.routing.bindings[n].thread) == n
    requires d.routing.bindings[n].retried != Some(message)
    requires var thread := d.routing.bindings[n].thread;
      thread in d.threads && d.threads[thread].message.Some? && d.threads[thread].message.value.id == message
    requires u == d.(routing := d.routing.(bindings := d.routing.bindings[n := d.routing.bindings[n].(retried := Some(message))]),
                     grants := d.grants + [Grant(d.routing.bindings[n].id, d.routing.bindings[n].thread, message, content)])
    ensures Sound(u)
  {
    forall x ensures Submitter(u.routing.bindings, x) == Submitter(d.routing.bindings, x) {
      SubmitterIgnoresRetries(d.routing.bindings, u.routing.bindings, x);
    }
    forall k | 0 <= k < |d.grants| ensures d.grants[k].message != message { assert Spent(d, d.grants[k]); }
    assert BindingsOk(u) && ThreadsOk(u);
    forall i | 0 <= i < |u.grants| ensures Spent(u, u.grants[i]) {
      if i < |d.grants| { assert Spent(d, d.grants[i]); }
    }
  }

  lemma SubmitterIgnoresRetries(a: seq<Binding>, b: seq<Binding>, thread: string)
    requires |a| == |b| && forall i :: 0 <= i < |a| ==> a[i].thread == b[i].thread
    ensures Submitter(a, thread) == Submitter(b, thread)
  {
  }

  lemma StepIsSound(d: Daemon, e: Event)
    requires Sound(d)
    ensures Sound(Step(d, e))
  {
    hide Sound, Created, Bound, Written, Reconciled, ReconciledAll, Consumed, Deleted;
    match e
    case Create(thread, plan, content) => CreateIsSound(d, thread, plan, content);
    case BindSession(thread, harness, session) =>
      if thread in d.threads {
        BindIsSound(d, thread, harness, session);
        ReconcileIsSound(Bound(d, thread, harness, session), thread);
      }
    case Send(thread, verdict) =>
      if Open(d, thread) {
        WriteIsSound(d, thread, verdict);
        ReconcileIsSound(Written(d, thread, verdict), thread);
      }
    case Ack(delivery) => AckIsSound(d, delivery);
    case Revise(thread, content) => ReviseIsSound(d, thread, content);
    case Refresh(thread, content) => RefreshIsSound(d, thread, content);
    case ConsumeRetry(binding, message, content) => ConsumeIsSound(d, binding, message, content);
    case Delete(thread) => DeleteIsSound(d, thread);
    case Restart(order) => ReconcileAllIsSound(d, order);
    case CrashedBind(thread, harness, session, order) =>
      if thread in d.threads {
        BindIsSound(d, thread, harness, session);
        ReconcileAllIsSound(Bound(d, thread, harness, session), order);
      }
    case CrashedSend(thread, verdict, order) =>
      if Open(d, thread) {
        WriteIsSound(d, thread, verdict);
        ReconcileAllIsSound(Written(d, thread, verdict), order);
      }
  }

  lemma {:induction false} RunsAreSound(d: Daemon, es: seq<Event>)
    requires Sound(d)
    ensures Sound(Steps(d, es))
    decreases es
  {
    if es != [] {
      hide Sound, Step;
      StepIsSound(d, es[0]);
      RunsAreSound(Step(d, es[0]), es[1..]);
    }
  }

  // ---- the promises ----

  /** Over any run, each approved Message grants at most one retry. */
  lemma OneRetryPerMessage(es: seq<Event>)
    ensures var g := Steps(FIRST, es).grants; forall i, j :: 0 <= i < j < |g| ==> g[i].message != g[j].message
  {
    RunsAreSound(FIRST, es);
  }

  /** A grant is made only to the Thread's first binding, only for the Message that approved it and that this
      binding has acknowledged, and only while the content is what was approved. */
  lemma GrantsAreDeserved(d: Daemon, e: Event)
    requires Sound(d)
    ensures var t := Step(d, e);
      && d.grants <= t.grants && |t.grants| <= |d.grants| + 1
      && (|t.grants| > |d.grants| ==>
            var g := t.grants[|d.grants|];
            && e == ConsumeRetry(g.binding, g.message, g.content)
            && g.thread in d.threads && d.threads[g.thread].plan && d.threads[g.thread].resolved
            && d.threads[g.thread].message == Some(Message(g.message, Approved, g.content))
            && d.threads[g.thread].content == g.content
            && Submitter(d.routing.bindings, g.thread) < |d.routing.bindings|
            && d.routing.bindings[Submitter(d.routing.bindings, g.thread)].id == g.binding
            && Acknowledged(d.routing, g.binding, g.message))
  {
    match e
    case BindSession(thread, harness, session) =>
      if thread in d.threads { BindIsSound(d, thread, harness, session); ReconcileIsSound(Bound(d, thread, harness, session), thread); }
    case Send(thread, verdict) =>
      if Open(d, thread) { WriteIsSound(d, thread, verdict); ReconcileIsSound(Written(d, thread, verdict), thread); }
    case Restart(order) => ReconcileAllIsSound(d, order);
    case CrashedBind(thread, harness, session, order) =>
      if thread in d.threads { BindIsSound(d, thread, harness, session); ReconcileAllIsSound(Bound(d, thread, harness, session), order); }
    case CrashedSend(thread, verdict, order) =>
      if Open(d, thread) { WriteIsSound(d, thread, verdict); ReconcileAllIsSound(Written(d, thread, verdict), order); }
    case _ =>
  }

  /** What a binding recorded as retried was granted to it. */
  predicate WasGranted(grants: seq<Grant>, binding: nat, message: nat) {
    exists k :: 0 <= k < |grants| && grants[k].binding == binding && grants[k].message == message
  }

  ghost predicate RecordsOk(d: Daemon) {
    forall i :: 0 <= i < |d.routing.bindings| && d.routing.bindings[i].retried.Some? ==>
      WasGranted(d.grants, d.routing.bindings[i].id, d.routing.bindings[i].retried.value)
  }

  lemma MoreGrants(d: Daemon, t: Daemon)
    requires RecordsOk(d) && d.grants <= t.grants
    requires forall b :: b in t.routing.bindings && b.retried.Some? ==> b in d.routing.bindings
    ensures RecordsOk(t)
  {
    forall i | 0 <= i < |t.routing.bindings| && t.routing.bindings[i].retried.Some?
      ensures WasGranted(t.grants, t.routing.bindings[i].id, t.routing.bindings[i].retried.value)
    {
      var b := t.routing.bindings[i];
      assert b in t.routing.bindings;
      var n :| 0 <= n < |d.routing.bindings| && d.routing.bindings[n] == b;
      var k :| 0 <= k < |d.grants| && d.grants[k].binding == b.id && d.grants[k].message == b.retried.value;
      assert t.grants[k] == d.grants[k];
    }
  }

  lemma ConsumeRecords(d: Daemon, binding: nat, message: nat, content: string)
    requires RecordsOk(d)
    ensures RecordsOk(Consumed(d, binding, message, content))
  {
    hide Deserves;
    var t := Consumed(d, binding, message, content);
    if t != d {
      var n := BindingIndex(d.routing.bindings, binding);
      assert t.grants[|d.grants|].binding == binding && t.grants[|d.grants|].message == message;
      forall i | 0 <= i < |t.routing.bindings| && t.routing.bindings[i].retried.Some?
        ensures WasGranted(t.grants, t.routing.bindings[i].id, t.routing.bindings[i].retried.value)
      {
        if i != n {
          var b := d.routing.bindings[i];
          var k :| 0 <= k < |d.grants| && d.grants[k].binding == b.id && d.grants[k].message == b.retried.value;
          assert t.grants[k] == d.grants[k];
        }
      }
    }
  }

  lemma BoundRecords(d: Daemon, thread: string, harness: string, session: string)
    requires RecordsOk(d)
    ensures RecordsOk(Bound(d, thread, harness, session))
  {
    MoreGrants(d, Bound(d, thread, harness, session));
  }

  lemma StepRecords(d: Daemon, e: Event)
    requires Sound(d) && RecordsOk(d)
    ensures RecordsOk(Step(d, e))
  {
    match e
    case ConsumeRetry(binding, message, content) => ConsumeRecords(d, binding, message, content);
    case Delete(thread) =>
      WithoutFacts(d.routing.bindings, thread);
      MoreGrants(d, Step(d, e));
    case BindSession(thread, harness, session) =>
      if thread in d.threads {
        BindIsSound(d, thread, harness, session);
        BoundRecords(d, thread, harness, session);
        ReconcileIsSound(Bound(d, thread, harness, session), thread);
      }
    case CrashedBind(thread, harness, session, order) =>
      if thread in d.threads {
        BindIsSound(d, thread, harness, session);
        BoundRecords(d, thread, harness, session);
        ReconcileAllIsSound(Bound(d, thread, harness, session), order);
      }
    case Send(thread, verdict) =>
      if Open(d, thread) { WriteIsSound(d, thread, verdict); ReconcileIsSound(Written(d, thread, verdict), thread); }
    case CrashedSend(thread, verdict, order) =>
      if Open(d, thread) { WriteIsSound(d, thread, verdict); ReconcileAllIsSound(Written(d, thread, verdict), order); }
    case Restart(order) => ReconcileAllIsSound(d, order);
    case _ =>
  }

  lemma {:induction false} RunsRecord(d: Daemon, es: seq<Event>)
    requires Sound(d) && RecordsOk(d)
    ensures Sound(Steps(d, es)) && RecordsOk(Steps(d, es))
    decreases es
  {
    if es != [] {
      hide Sound, RecordsOk, Step;
      StepIsSound(d, es[0]);
      StepRecords(d, es[0]);
      RunsRecord(Step(d, es[0]), es[1..]);
    }
  }

  /** The plan of this Thread was approved by this Message, is as it was then, and its first binding, which is this
      one, has acknowledged the Message. */
  predicate Approves(d: Daemon, thread: string, binding: nat, message: nat, content: string) {
    && thread in d.threads
    && var t := d.threads[thread];
    && t.plan && t.resolved && t.content == content && t.message == Some(Message(message, Approved, content))
    && var n := Submitter(d.routing.bindings, thread);
    && n < |d.routing.bindings| && d.routing.bindings[n].id == binding
    && exists i :: 0 <= i < |d.routing.deliveries| && d.routing.deliveries[i].binding == binding
                   && d.routing.deliveries[i].message == message && d.routing.deliveries[i].acknowledged
  }

  lemma ApprovedIsDeserved(d: Daemon, thread: string, binding: nat, message: nat, content: string)
    requires Sound(d) && Approves(d, thread, binding, message, content)
    ensures Deserves(d, binding, message, content)
    ensures d.routing.bindings[BindingIndex(d.routing.bindings, binding)].thread == thread
  {
    var n, k := Submitter(d.routing.bindings, thread), BindingIndex(d.routing.bindings, binding);
    assert k == n;
    var i :| 0 <= i < |d.routing.deliveries| && d.routing.deliveries[i].binding == binding
             && d.routing.deliveries[i].message == message && d.routing.deliveries[i].acknowledged;
    assert d.routing.deliveries[i] == Delivery(d.routing.deliveries[i].id, binding, message, true);
  }

  /** In every state of every run: a retry is granted if and only if the plan was approved by this Message, is
      unchanged and acknowledged, by its first binding, and no retry was granted for this Message before. */
  lemma RetriesAreGrantedExactly(es: seq<Event>, binding: nat, message: nat, content: string)
    ensures var d := Steps(FIRST, es);
      var t := Step(d, ConsumeRetry(binding, message, content));
      if (exists thread :: Approves(d, thread, binding, message, content)) && (forall k :: 0 <= k < |d.grants| ==> d.grants[k].message != message)
      then |t.grants| == |d.grants| + 1 && t.grants[|d.grants|].message == message && t.grants[|d.grants|].binding == binding
      else t == d
  {
    RunsRecord(FIRST, es);
    GrantExactly(Steps(FIRST, es), binding, message, content);
  }

  lemma GrantExactly(d: Daemon, binding: nat, message: nat, content: string)
    requires Sound(d) && RecordsOk(d)
    ensures var t := Step(d, ConsumeRetry(binding, message, content));
      if (exists thread :: Approves(d, thread, binding, message, content)) && (forall k :: 0 <= k < |d.grants| ==> d.grants[k].message != message)
      then |t.grants| == |d.grants| + 1 && t.grants[|d.grants|].message == message && t.grants[|d.grants|].binding == binding
      else t == d
  {
    var t := Step(d, ConsumeRetry(binding, message, content));
    var n := BindingIndex(d.routing.bindings, binding);
    if exists thread :: Approves(d, thread, binding, message, content) {
      var thread :| Approves(d, thread, binding, message, content);
      ApprovedIsDeserved(d, thread, binding, message, content);
      hide Approves;
      if d.routing.bindings[n].retried == Some(message) {
        assert WasGranted(d.grants, binding, message);
      } else {
        forall k | 0 <= k < |d.grants| ensures d.grants[k].message != message { assert Spent(d, d.grants[k]); }
      }
    } else if t != d {
      GrantsAreDeserved(d, ConsumeRetry(binding, message, content));
      GrantIsApproved(d, binding, message, content);
      assert false;
    }
  }

  lemma GrantIsApproved(d: Daemon, binding: nat, message: nat, content: string)
    requires Sound(d) && Consumed(d, binding, message, content) != d
    ensures exists thread :: Approves(d, thread, binding, message, content)
  {
    var thread := d.routing.bindings[BindingIndex(d.routing.bindings, binding)].thread;
    var i :| 0 <= i < |d.routing.deliveries| && d.routing.deliveries[i] == Delivery(d.routing.deliveries[i].id, binding, message, true);
    assert Approves(d, thread, binding, message, content);
  }

  /** The first binding of a Thread stays its first for as long as the Thread is there, restarts included. */
  lemma {:induction false} FirstBindingStays(d: Daemon, es: seq<Event>, thread: string)
    requires Sound(d) && Delete(thread) !in es && Submitter(d.routing.bindings, thread) < |d.routing.bindings|
    ensures var a, b := d.routing.bindings, Steps(d, es).routing.bindings;
      Submitter(b, thread) < |b| && b[Submitter(b, thread)].id == a[Submitter(a, thread)].id
    decreases es
  {
    if es != [] {
      StepIsSound(d, es[0]);
      FirstBindingStep(d, es[0], thread);
      FirstBindingStays(Step(d, es[0]), es[1..], thread);
    }
  }

  lemma FirstBindingStep(d: Daemon, e: Event, thread: string)
    requires Sound(d) && e != Delete(thread) && Submitter(d.routing.bindings, thread) < |d.routing.bindings|
    ensures var a, b := d.routing.bindings, Step(d, e).routing.bindings;
      Submitter(b, thread) < |b| && b[Submitter(b, thread)].id == a[Submitter(a, thread)].id
  {
    hide Sound, Reconciled, ReconciledAll, Bound, Written, Created, Consumed;
    match e
    case ConsumeRetry(binding, message, content) => ConsumeKeepsFirst(d, binding, message, content, thread);
    case Delete(t) => OtherSubmitters(d.routing.bindings, t, thread);
    case _ =>
      BindingsOnlyGrow(d, e);
      SubmitterStays(d.routing.bindings, Step(d, e).routing.bindings, thread);
  }

  lemma ConsumeKeepsFirst(d: Daemon, binding: nat, message: nat, content: string, thread: string)
    requires Submitter(d.routing.bindings, thread) < |d.routing.bindings|
    ensures var a, b := d.routing.bindings, Consumed(d, binding, message, content).routing.bindings;
      Submitter(b, thread) < |b| && b[Submitter(b, thread)].id == a[Submitter(a, thread)].id
  {
    hide Deserves;
    SubmitterIgnoresRetries(d.routing.bindings, Consumed(d, binding, message, content).routing.bindings, thread);
  }

  lemma BindingsOnlyGrow(d: Daemon, e: Event)
    requires Sound(d) && !e.ConsumeRetry? && !e.Delete?
    ensures d.routing.bindings <= Step(d, e).routing.bindings
  {
    match e
    case BindSession(t, harness, session) =>
      if t in d.threads {
        BindIsSound(d, t, harness, session);
        ReconcileIsSound(Bound(d, t, harness, session), t);
      }
    case Send(t, verdict) =>
      if Open(d, t) { WriteIsSound(d, t, verdict); ReconcileIsSound(Written(d, t, verdict), t); }
    case Restart(order) => ReconcileAllIsSound(d, order);
    case CrashedBind(t, harness, session, order) =>
      if t in d.threads { BindIsSound(d, t, harness, session); ReconcileAllIsSound(Bound(d, t, harness, session), order); }
    case CrashedSend(t, verdict, order) =>
      if Open(d, t) { WriteIsSound(d, t, verdict); ReconcileAllIsSound(Written(d, t, verdict), order); }
    case _ =>
  }

  // ---- crashes between the two writes ----

  /** Every current Message is queued for its Thread's submitter. */
  ghost predicate AllQueued(d: Daemon) {
    forall t :: t in d.threads ==> CurrentIsQueued(d, t)
  }

  predicate CurrentIsQueued(d: Daemon, thread: string) {
    var n := Submitter(d.routing.bindings, thread);
    thread in d.threads && d.threads[thread].message.Some? && n < |d.routing.bindings| ==>
      PairIndex(d.routing.deliveries, d.routing.bindings[n].id, d.threads[thread].message.value.id) < |d.routing.deliveries|
  }

  /** A daemon that died after writing a Thread's Message, or a binding, and before queueing the delivery:
      the restart, in whatever order it visits the Threads, leaves each current Message queued, and every other
      Thread's deliveries as they were. */
  lemma {:induction false} RestartQueuesEverything(d: Daemon, order: seq<string>)
    ensures forall t :: t in order && t in d.threads ==> CurrentIsQueued(ReconciledAll(d, order), t)
    ensures ReconciledAll(d, order).threads == d.threads && ReconciledAll(d, order).routing.bindings == d.routing.bindings
    ensures d.routing.deliveries <= ReconciledAll(d, order).routing.deliveries
    ensures AllQueued(d) ==> ReconciledAll(d, order).routing == d.routing
  {
    if order != [] {
      var n := |order| - 1;
      RestartQueuesEverything(d, order[..n]);
      var before := ReconciledAll(d, order[..n]);
      var after := Reconciled(before, order[n]);
      assert order == order[..n] + [order[n]];
      assert before.routing.deliveries <= after.routing.deliveries;
      forall t | t in order && t in d.threads ensures CurrentIsQueued(after, t) {
        if t in order[..n] { StillQueued(before, after, t); } else { NowQueued(before, t); }
      }
      if AllQueued(d) && order[n] in d.threads { assert CurrentIsQueued(d, order[n]); }
    }
  }

  lemma PairStays(a: seq<Delivery>, b: seq<Delivery>, binding: nat, message: nat)
    requires a <= b && PairIndex(a, binding, message) < |a|
    ensures PairIndex(b, binding, message) < |b|
  {
    var n := PairIndex(a, binding, message);
    assert b[n] == a[n];
  }

  lemma StillQueued(a: Daemon, b: Daemon, thread: string)
    requires thread in a.threads && CurrentIsQueued(a, thread)
    requires b.threads == a.threads && b.routing.bindings == a.routing.bindings && a.routing.deliveries <= b.routing.deliveries
    ensures CurrentIsQueued(b, thread)
  {
    var n := Submitter(a.routing.bindings, thread);
    if a.threads[thread].message.Some? && n < |a.routing.bindings| {
      PairStays(a.routing.deliveries, b.routing.deliveries, a.routing.bindings[n].id, a.threads[thread].message.value.id);
    }
  }

  lemma NowQueued(d: Daemon, thread: string)
    requires thread in d.threads
    ensures CurrentIsQueued(Reconciled(d, thread), thread)
  {
    var n := Submitter(d.routing.bindings, thread);
    if d.threads[thread].message.Some? && n < |d.routing.bindings| {
      var b, m := d.routing.bindings[n].id, d.threads[thread].message.value.id;
      if PairIndex(d.routing.deliveries, b, m) == |d.routing.deliveries| {
        var all := Enqueue(d.routing, b, m, d.next).deliveries;
        assert all[|all| - 1].binding == b && all[|all| - 1].message == m;
      }
    }
  }

  // ---- one delivery per Message ----

  /** As long as this delivery's Message is a Thread's current one, the delivery goes to that Thread's submitter. */
  predicate Routed(d: Daemon, item: Delivery) {
    && item.message < d.next
    && forall t :: t in d.threads && d.threads[t].message.Some? && d.threads[t].message.value.id == item.message ==>
         var n := Submitter(d.routing.bindings, t); n < |d.routing.bindings| && d.routing.bindings[n].id == item.binding
  }

  ghost predicate RoutedOnce(d: Daemon) {
    && (forall i :: 0 <= i < |d.routing.deliveries| ==> Routed(d, d.routing.deliveries[i]))
    && DistinctMessages(d.routing.deliveries)
  }

  ghost predicate DistinctMessages(deliveries: seq<Delivery>) {
    forall i, j :: 0 <= i < j < |deliveries| ==> deliveries[i].message != deliveries[j].message
  }

  /** Steps that route nothing new: deliveries keep their ends, submitters stay, Messages are kept or brand new. */
  lemma RoutesKept(d: Daemon, t: Daemon)
    requires RoutedOnce(d) && d.next <= t.next && |t.routing.deliveries| == |d.routing.deliveries|
    requires forall i :: 0 <= i < |d.routing.deliveries| ==>
      t.routing.deliveries[i].message == d.routing.deliveries[i].message && t.routing.deliveries[i].binding == d.routing.deliveries[i].binding
    requires SubmittersKept(d, t)
    requires forall x :: x in t.threads && t.threads[x].message.Some? ==>
      (x in d.threads && t.threads[x].message == d.threads[x].message) || t.threads[x].message.value.id >= d.next
    ensures RoutedOnce(t)
  {
    forall i | 0 <= i < |t.routing.deliveries| ensures Routed(t, t.routing.deliveries[i]) {
      assert Routed(d, d.routing.deliveries[i]);
    }
  }

  ghost predicate SubmittersKept(d: Daemon, t: Daemon) {
    forall x :: Submitter(d.routing.bindings, x) < |d.routing.bindings| ==>
      && Submitter(t.routing.bindings, x) < |t.routing.bindings|
      && t.routing.bindings[Submitter(t.routing.bindings, x)].id == d.routing.bindings[Submitter(d.routing.bindings, x)].id
  }

  lemma PrefixKeepsSubmitters(d: Daemon, t: Daemon)
    requires d.routing.bindings <= t.routing.bindings
    ensures SubmittersKept(d, t)
  {
    forall x | Submitter(d.routing.bindings, x) < |d.routing.bindings|
      ensures Submitter(t.routing.bindings, x) == Submitter(d.routing.bindings, x)
    {
      SubmitterStays(d.routing.bindings, t.routing.bindings, x);
    }
  }

  lemma ReconcileRoutes(d: Daemon, thread: string)
    requires Sound(d) && RoutedOnce(d)
    ensures RoutedOnce(Reconciled(d, thread))
  {
    var t := Reconciled(d, thread);
    if t.routing != d.routing {
      var b := d.routing.bindings[Submitter(d.routing.bindings, thread)].id;
      var m := d.threads[thread].message.value.id;
      var item := Delivery(d.next, b, m, false);
      assert t.routing.deliveries == d.routing.deliveries + [item];
      forall i | 0 <= i < |d.routing.deliveries| ensures d.routing.deliveries[i].message != m && Routed(t, d.routing.deliveries[i]) {
        assert Routed(d, d.routing.deliveries[i]);
      }
      assert Routed(t, item);
    } else {
      RoutesKept(d, t);
    }
  }

  lemma {:induction false} ReconcileAllRoutes(d: Daemon, order: seq<string>)
    requires Sound(d) && RoutedOnce(d)
    ensures RoutedOnce(ReconciledAll(d, order))
  {
    if order != [] {
      hide Sound, RoutedOnce, Reconciled;
      ReconcileAllRoutes(d, order[..|order| - 1]);
      ReconcileAllIsSound(d, order[..|order| - 1]);
      ReconcileRoutes(ReconciledAll(d, order[..|order| - 1]), order[|order| - 1]);
    }
  }

  lemma ConsumeRoutes(d: Daemon, binding: nat, message: nat, content: string)
    requires RoutedOnce(d)
    ensures RoutedOnce(Consumed(d, binding, message, content))
  {
    var t := Consumed(d, binding, message, content);
    forall x ensures Submitter(t.routing.bindings, x) == Submitter(d.routing.bindings, x) {
      SubmitterIgnoresRetries(d.routing.bindings, t.routing.bindings, x);
    }
    RoutesKept(d, t);
  }

  lemma {:induction false} DeliveriesWithoutFacts(deliveries: seq<Delivery>, bindings: seq<Binding>, thread: string)
    ensures forall item :: item in DeliveriesWithout(deliveries, bindings, thread) ==> item in deliveries
    ensures DistinctMessages(deliveries) ==> DistinctMessages(DeliveriesWithout(deliveries, bindings, thread))
  {
    if deliveries != [] {
      var n := |deliveries| - 1;
      DeliveriesWithoutFacts(deliveries[..n], bindings, thread);
      assert deliveries == deliveries[..n] + [deliveries[n]];
      var before := DeliveriesWithout(deliveries[..n], bindings, thread);
      forall i | 0 <= i < |before| ensures before[i] in deliveries[..n] { assert before[i] in before; }
    }
  }

  lemma DeleteRoutes(d: Daemon, thread: string)
    requires RoutedOnce(d)
    ensures RoutedOnce(Deleted(d, thread))
  {
    var t := Deleted(d, thread);
    DeliveriesWithoutFacts(d.routing.deliveries, d.routing.bindings, thread);
    forall i | 0 <= i < |t.routing.deliveries| ensures Routed(t, t.routing.deliveries[i]) {
      assert t.routing.deliveries[i] in t.routing.deliveries;
      assert Routed(d, t.routing.deliveries[i]);
      forall x | x != thread
        ensures var n, m := Submitter(d.routing.bindings, x), Submitter(t.routing.bindings, x);
          n < |d.routing.bindings| ==> m < |t.routing.bindings| && t.routing.bindings[m] == d.routing.bindings[n]
      {
        OtherSubmitters(d.routing.bindings, thread, x);
      }
    }
  }

  lemma QuietRoutes(d: Daemon, e: Event)
    requires RoutedOnce(d) && (e.Create? || e.Ack? || e.Revise? || e.Refresh?)
    ensures RoutedOnce(Step(d, e))
  {
    PrefixKeepsSubmitters(d, Step(d, e));
    RoutesKept(d, Step(d, e));
  }

  lemma BoundRoutes(d: Daemon, thread: string, harness: string, session: string)
    requires RoutedOnce(d)
    ensures RoutedOnce(Bound(d, thread, harness, session))
  {
    PrefixKeepsSubmitters(d, Bound(d, thread, harness, session));
    RoutesKept(d, Bound(d, thread, harness, session));
  }

  lemma WrittenRoutes(d: Daemon, thread: string, verdict: Verdict)
    requires RoutedOnce(d) && thread in d.threads
    ensures RoutedOnce(Written(d, thread, verdict))
  {
    PrefixKeepsSubmitters(d, Written(d, thread, verdict));
    RoutesKept(d, Written(d, thread, verdict));
  }

  lemma StepRoutes(d: Daemon, e: Event)
    requires Sound(d) && RoutedOnce(d)
    ensures RoutedOnce(Step(d, e))
  {
    hide Sound, RoutedOnce, Created, Bound, Written, Reconciled, ReconciledAll, Consumed, Deleted;
    match e
    case BindSession(thread, harness, session) =>
      if thread in d.threads {
        BindIsSound(d, thread, harness, session);
        BoundRoutes(d, thread, harness, session);
        ReconcileRoutes(Bound(d, thread, harness, session), thread);
      }
    case Send(thread, verdict) =>
      if Open(d, thread) {
        WriteIsSound(d, thread, verdict);
        WrittenRoutes(d, thread, verdict);
        ReconcileRoutes(Written(d, thread, verdict), thread);
      }
    case ConsumeRetry(binding, message, content) => ConsumeRoutes(d, binding, message, content);
    case Delete(thread) => DeleteRoutes(d, thread);
    case Restart(order) => ReconcileAllRoutes(d, order);
    case CrashedBind(thread, harness, session, order) =>
      if thread in d.threads {
        BindIsSound(d, thread, harness, session);
        BoundRoutes(d, thread, harness, session);
        ReconcileAllRoutes(Bound(d, thread, harness, session), order);
      }
    case CrashedSend(thread, verdict, order) =>
      if Open(d, thread) {
        WriteIsSound(d, thread, verdict);
        WrittenRoutes(d, thread, verdict);
        ReconcileAllRoutes(Written(d, thread, verdict), order);
      }
    case _ => QuietRoutes(d, e);
  }

  /** Over any run of the daemon a Message is queued once, for its Thread's submitter and nobody else: what the
      delivery protocol asks of whoever queues. */
  lemma {:induction false} OneDeliveryPerMessage(d: Daemon, es: seq<Event>)
    requires Sound(d) && RoutedOnce(d)
    ensures RoutedOnce(Steps(d, es))
    decreases es
  {
    if es != [] {
      hide Sound, RoutedOnce, Step;
      StepIsSound(d, es[0]);
      StepRoutes(d, es[0]);
      OneDeliveryPerMessage(Step(d, es[0]), es[1..]);
    }
  }

  /** From a new daemon, whatever happens. */
  lemma MessagesAreRoutedOnce(es: seq<Event>)
    ensures Sound(Steps(FIRST, es)) && RoutedOnce(Steps(FIRST, es))
  {
    hide Steps;
    RunsAreSound(FIRST, es);
    OneDeliveryPerMessage(FIRST, es);
  }
}
