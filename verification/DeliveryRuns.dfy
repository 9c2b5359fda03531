/**
 * What the delivery protocol gets done (packages/adapters/src/harness-thread-controller.ts, `deliverPending`): a
 * worker that nothing disturbs hands over everything that is pending for its binding, whatever went wrong before.
 */
module DeliveryRuns {
  import opened Common
  import opened HarnessState
  import opened DeliveryProtocol
  import D = DeliverPending

  lemma {:induction false} StepsOfTwo(m: Machine, a: seq<Event>, b: seq<Event>)
    ensures Steps(m, a + b) == Steps(Steps(m, a), b)
    decreases a
  {
    if a == [] {
      assert a + b == b;
    } else {
      assert (a + b)[0] == a[0] && (a + b)[1..] == a[1..] + b;
      StepsOfTwo(Step(m, a[0]), a[1..], b);
    }
  }

  /** One item: a Message the journal knows is only acknowledged. */
  function Round(w: nat, known: bool): seq<Event> {
    if known then [Check(w), Ack(w)] else [Check(w), Inject(w), Record(w), Ack(w)]
  }

  function Rounds(w: nat, items: seq<Delivery>, journal: set<nat>): seq<Event> {
    if items == [] then []
    else
      var n := |items| - 1;
      Rounds(w, items[..n], journal) + Round(w, items[n].message in journal + D.Messages(items[..n]))
  }

  /** The worker with these items left. */
  function Going(k: Worker, items: seq<Delivery>): Worker
    requires k.Sending?
  {
    Sending(k.binding, items, k.upto)
  }

  /** The worker has done these items, and nothing else has changed. */
  ghost predicate Did(m: Machine, w: nat, items: seq<Delivery>, i: nat, t: Machine)
    requires w < |m.workers| && m.workers[w].Sending? && i <= |items|
  {
    && t.workers == m.workers[w := Going(m.workers[w], items[i..])]
    && t.lock == None && t.lost == m.lost
    && t.journal == m.journal + D.Messages(items[..i])
    && t.injected == m.injected + D.Unsent(items[..i], m.journal)
    && t.deliveries == D.AcknowledgeEach(m.deliveries, items[..i])
  }

  /** The state after one round. */
  function Rounded(m: Machine, w: nat): Machine
    requires w < |m.workers| && m.workers[w].Sending? && m.workers[w].items != []
  {
    var k := m.workers[w];
    var d := k.items[0];
    m.(workers := m.workers[w := Going(k, k.items[1..])], journal := m.journal + {d.message},
       injected := m.injected + if d.message in m.journal then [] else [d.message],
       deliveries := Acknowledge(State([], m.deliveries), d.id).deliveries)
  }

  lemma OneRound(m: Machine, w: nat)
    requires w < |m.workers| && m.workers[w].Sending? && m.workers[w].items != [] && m.lock == None
    ensures Steps(m, Round(w, m.workers[w].items[0].message in m.journal)) == Rounded(m, w)
  {
    if m.workers[w].items[0].message in m.journal { KnownRound(m, w); } else { NewRound(m, w); }
  }

  lemma KnownRound(m: Machine, w: nat)
    requires w < |m.workers| && m.workers[w].Sending? && m.workers[w].items != [] && m.lock == None
    requires m.workers[w].items[0].message in m.journal
    ensures Steps(m, Round(w, true)) == Rounded(m, w)
  {
    hide Acknowledge;
    TwoSteps(m, w);
    var k := m.workers[w];
    assert m.workers[w := Sent(k.binding, k.items, k.upto)][w := Going(k, k.items[1..])] == m.workers[w := Going(k, k.items[1..])];
    assert m.journal + {k.items[0].message} == m.journal && m.injected + [] == m.injected;
  }

  lemma NewRound(m: Machine, w: nat)
    requires w < |m.workers| && m.workers[w].Sending? && m.workers[w].items != [] && m.lock == None
    requires m.workers[w].items[0].message !in m.journal
    ensures Steps(m, Round(w, false)) == Rounded(m, w)
  {
    hide Acknowledge;
    FourSteps(m, w);
    var k := m.workers[w];
    var a, b, c := Checked(k.binding, k.items, k.upto), Injected(k.binding, k.items, k.upto), Sent(k.binding, k.items, k.upto);
    var x := k.items[0].message;
    var m1 := m.(workers := m.workers[w := a], lock := Some(w));
    var m2 := m.(workers := m.workers[w := b], lock := Some(w), injected := m.injected + [x]);
    var m3 := m.(workers := m.workers[w := c], injected := m.injected + [x], journal := m.journal + {x});
    assert Step(m, Check(w)) == m1;
    assert Step(m1, Inject(w)) == m2 by { assert m1.workers[w := b] == m2.workers; }
    assert Step(m2, Record(w)) == m3 by { assert m2.workers[w := c] == m3.workers; }
    assert Step(m3, Ack(w)) == Rounded(m, w) by { assert m3.workers[w := Going(k, k.items[1..])] == m.workers[w := Going(k, k.items[1..])]; }
  }

  lemma TwoSteps(m: Machine, w: nat)
    ensures Steps(m, Round(w, true)) == Step(Step(m, Check(w)), Ack(w))
  {
    hide Step;
    assert Round(w, true)[1..] == [Ack(w)] && [Ack(w)][1..] == [];
    assert Steps(Step(m, Check(w)), [Ack(w)]) == Steps(Step(Step(m, Check(w)), Ack(w)), []);
  }

  lemma FourSteps(m: Machine, w: nat)
    ensures Steps(m, Round(w, false)) == Step(Step(Step(Step(m, Check(w)), Inject(w)), Record(w)), Ack(w))
  {
    hide Step;
    var es := Round(w, false);
    assert es[1..] == [Inject(w), Record(w), Ack(w)] && es[1..][1..] == [Record(w), Ack(w)];
    assert es[1..][1..][1..] == [Ack(w)] && [Ack(w)][1..] == [];
    assert Steps(Step(Step(Step(m, Check(w)), Inject(w)), Record(w)), [Ack(w)])
        == Steps(Step(Step(Step(Step(m, Check(w)), Inject(w)), Record(w)), Ack(w)), []);
    assert Steps(Step(Step(m, Check(w)), Inject(w)), [Record(w), Ack(w)])
        == Steps(Step(Step(Step(m, Check(w)), Inject(w)), Record(w)), [Ack(w)]);
  }

  lemma {:induction false} RoundsDo(m: Machine, w: nat, items: seq<Delivery>, i: nat)
    requires w < |m.workers| && m.workers[w].Sending? && m.workers[w].items == items && m.lock == None && i <= |items|
    ensures Did(m, w, items, i, Steps(m, Rounds(w, items[..i], m.journal)))
  {
    if i == 0 {
      NothingDone(m, w, items);
    } else {
      var n := i - 1;
      assert items[..i][..n] == items[..n] && items[..i][n] == items[n];
      var before := Rounds(w, items[..n], m.journal);
      RoundsDo(m, w, items, n);
      var t := Steps(m, before);
      StepsOfTwo(m, before, Round(w, items[n].message in t.journal));
      OneMoreDone(m, w, items, n, t);
    }
  }

  lemma NothingDone(m: Machine, w: nat, items: seq<Delivery>)
    requires w < |m.workers| && m.workers[w].Sending? && m.workers[w].items == items && m.lock == None
    ensures Did(m, w, items, 0, m) && Rounds(w, items[..0], m.journal) == []
  {
    assert m.workers[w := Going(m.workers[w], items[0..])] == m.workers;
    assert D.Messages(items[..0]) == {} && D.Unsent(items[..0], m.journal) == [];
    assert D.AcknowledgeEach(m.deliveries, items[..0]) == m.deliveries;
  }

  lemma OneMoreDone(m: Machine, w: nat, items: seq<Delivery>, n: nat, t: Machine)
    requires w < |m.workers| && m.workers[w].Sending? && m.workers[w].items == items && n < |items| && Did(m, w, items, n, t)
    ensures Did(m, w, items, n + 1, Steps(t, Round(w, items[n].message in t.journal)))
  {
    hide Acknowledge, Step, Round, D.Unsent, D.Messages, D.AcknowledgeEach;
    assert items[n..][0] == items[n] && items[n..][1..] == items[n + 1..];
    OneRound(t, w);
    D.UnsentOne(items, m.journal, n);
    D.EachMore(m.deliveries, items, n);
    var d := items[n];
    var old_, new_ := D.Messages(items[..n]), D.Messages(items[..n + 1]);
    assert (m.journal + old_) + {d.message} == m.journal + new_;
    assert m.workers[w := Going(m.workers[w], items[n..])][w := Going(m.workers[w], items[n + 1..])]
        == m.workers[w := Going(m.workers[w], items[n + 1..])];
  }

  /** A worker's whole turn: fetch, then hand over one delivery after the other. */
  function Turn(m: Machine, w: nat, binding: nat): seq<Event> {
    [Fetch(w, binding)] + Rounds(w, Pending(m.deliveries, binding), m.journal)
  }

  /** From any state in which the lock is free, whatever died before: a worker that is left alone injects exactly
      the pending Messages of its binding that the journal does not know, in the order they were queued,
      acknowledges exactly those deliveries, and leaves nothing of the binding pending. */
  lemma LeftAloneEverythingArrives(m: Machine, w: nat, binding: nat)
    requires w < |m.workers| && m.workers[w].Resting? && m.lock == None && D.DistinctIds(m.deliveries)
    ensures var t := Steps(m, Turn(m, w, binding));
      && t.deliveries == D.AcknowledgeAll(m.deliveries, binding) && Pending(t.deliveries, binding) == []
      && t.injected == m.injected + D.Unsent(Pending(m.deliveries, binding), m.journal)
      && t.journal == m.journal + D.Messages(Pending(m.deliveries, binding))
      && t.lock == None && t.lost == m.lost
  {
    var items := Pending(m.deliveries, binding);
    var f := Step(m, Fetch(w, binding));
    assert f == m.(workers := m.workers[w := Sending(binding, items, |m.deliveries|)]);
    hide Step, Pending, D.DistinctIds, D.Unsent, D.Messages, D.AcknowledgeEach, D.AcknowledgeAll;
    assert Turn(m, w, binding)[0] == Fetch(w, binding) && Turn(m, w, binding)[1..] == Rounds(w, items, f.journal);
    RoundsDo(f, w, items, |items|);
    assert items[..|items|] == items;
    D.PendingBecomesAll(m.deliveries, binding);
  }

  /** A Message that is queued for a binding is in the harness's journal after the next turn that is left alone. */
  lemma QueuedArrives(m: Machine, w: nat, binding: nat, message: nat)
    requires Sound(m) && Allowed(m, Queue(binding, message)) && w < |m.workers| && m.workers[w].Resting? && m.lock == None
    ensures var q := Step(m, Queue(binding, message));
      message in Steps(q, Turn(q, w, binding)).journal && message in Steps(q, Turn(q, w, binding)).injected
  {
    var q := Step(m, Queue(binding, message));
    var t := Steps(q, Turn(q, w, binding));
    EnqueueExactly(State([], m.deliveries), binding, message, |m.deliveries|);
    StepIsSound(m, Queue(binding, message));
    assert D.DistinctIds(q.deliveries) && q.workers == m.workers && q.lock == None;
    SoundAcknowledged(q);
    var i :| 0 <= i < |q.deliveries| && q.deliveries[i].binding == binding && q.deliveries[i].message == message;
    hide Sound, Step, D.DistinctIds;
    LeftAloneEverythingArrives(q, w, binding);
    if q.deliveries[i].acknowledged {
      assert message in q.journal && message in q.injected;
    } else {
      PendingIsJournaled(q, binding, message, i);
    }
  }

  lemma SoundAcknowledged(m: Machine)
    requires Sound(m)
    ensures forall i :: 0 <= i < |m.deliveries| && m.deliveries[i].acknowledged ==> m.deliveries[i].message in m.journal && m.deliveries[i].message in m.injected
    ensures forall x :: x in m.journal ==> x in m.injected
  {
  }

  lemma PendingIsJournaled(m: Machine, binding: nat, message: nat, i: nat)
    requires i < |m.deliveries| && m.deliveries[i].binding == binding && m.deliveries[i].message == message && !m.deliveries[i].acknowledged
    requires forall x :: x in m.journal ==> x in m.injected
    ensures var items := Pending(m.deliveries, binding);
      message in m.journal + D.Messages(items) && message in m.injected + D.Unsent(items, m.journal)
  {
    var items := Pending(m.deliveries, binding);
    D.PendingExactly(m.deliveries, binding);
    assert m.deliveries[i] in items;
    var k :| 0 <= k < |items| && items[k] == m.deliveries[i];
    assert items[k].message in D.Messages(items);
    if message !in m.journal { UnsentHas(items, m.journal, k); }
  }

  lemma {:induction false} UnsentHas(items: seq<Delivery>, journal: set<nat>, k: nat)
    requires k < |items| && items[k].message !in journal
    ensures items[k].message in D.Unsent(items, journal)
  {
    var n := |items| - 1;
    if k < n {
      UnsentHas(items[..n], journal, k);
    } else if D.Mentions(items[..n], items[n].message) {
      var j :| 0 <= j < n && items[..n][j].message == items[n].message;
      UnsentHas(items[..n], journal, j);
    }
  }
}
