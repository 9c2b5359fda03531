/**
 * Handing Messages to a harness (packages/adapters/src/harness-thread-controller.ts, `deliverPending`, and
 * packages/adapters/src/delivered-message-store.ts, `sendOnce`) over the daemon's deliveries: any number of
 * workers, any interleaving of fetching, locking, injecting, journaling and acknowledging, and a worker that
 * may die between any two of these. The journal's lock is an ideal mutex that dies with its holder.
 */
module DeliveryProtocol {
  import opened Common
  import opened HarnessState

  /** What a worker is in the middle of, with the deliveries it fetched and has not finished; `upto` (history)
      is how many deliveries there were when it fetched them. */
  datatype Worker =
    | Resting
    | Sending(binding: nat, items: seq<Delivery>, upto: nat)
    | Checked(binding: nat, items: seq<Delivery>, upto: nat)
    | Injected(binding: nat, items: seq<Delivery>, upto: nat)
    | Sent(binding: nat, items: seq<Delivery>, upto: nat)

  /** `injected` is every native injection in order; `lost` those whose worker died before journaling them. */
  datatype Machine = Machine(
    deliveries: seq<Delivery>, journal: set<nat>, lock: Option<nat>, workers: seq<Worker>,
    injected: seq<nat>, lost: seq<nat>)

  function Start(workers: nat): Machine {
    Machine([], {}, None, seq(workers, _ => Resting), [], [])
  }

  datatype Event =
    | Queue(binding: nat, message: nat)
    | Fetch(worker: nat, binding: nat)
    | Check(worker: nat)
    | Inject(worker: nat)
    | Record(worker: nat)
    | Ack(worker: nat)
    | Die(worker: nat)

  predicate Busy(m: Machine, w: nat) {
    w < |m.workers| && !m.workers[w].Resting? && m.workers[w].items != []
  }

  function Set(m: Machine, w: nat, worker: Worker): Machine
    requires w < |m.workers|
  {
    m.(workers := m.workers[w := worker])
  }

  /** A delivery's identity is its place, as long as no thread is deleted. */
  function Queued(m: Machine, binding: nat, message: nat): Machine {
    m.(deliveries := Enqueue(State([], m.deliveries), binding, message, |m.deliveries|).deliveries)
  }

  function Fetched(m: Machine, w: nat, binding: nat): Machine {
    if w >= |m.workers| || !m.workers[w].Resting? then m
    else Set(m, w, Sending(binding, Pending(m.deliveries, binding), |m.deliveries|))
  }

  /** Take the lock and read the journal: what is in it counts as sent, and the lock is given back. */
  function CheckedOne(m: Machine, w: nat): Machine {
    if !Busy(m, w) || !m.workers[w].Sending? || m.lock.Some? then m
    else
      var k := m.workers[w];
      if k.items[0].message in m.journal then Set(m, w, Sent(k.binding, k.items, k.upto))
      else Set(m, w, Checked(k.binding, k.items, k.upto)).(lock := Some(w))
  }

  function InjectedOne(m: Machine, w: nat): Machine {
    if !Busy(m, w) || !m.workers[w].Checked? then m
    else
      var k := m.workers[w];
      Set(m, w, Injected(k.binding, k.items, k.upto)).(injected := m.injected + [k.items[0].message])
  }

  function Recorded(m: Machine, w: nat): Machine {
    if !Busy(m, w) || !m.workers[w].Injected? then m
    else
      var k := m.workers[w];
      Set(m, w, Sent(k.binding, k.items, k.upto)).(journal := m.journal + {k.items[0].message}, lock := None)
  }

  function Acked(m: Machine, w: nat): Machine {
    if !Busy(m, w) || !m.workers[w].Sent? then m
    else
      var k := m.workers[w];
      Set(m, w, Sending(k.binding, k.items[1..], k.upto))
        .(deliveries := Acknowledge(State([], m.deliveries), k.items[0].id).deliveries)
  }

  function Died(m: Machine, w: nat): Machine {
    if w >= |m.workers| then m
    else
      var k := m.workers[w];
      Set(m, w, Resting)
        .(lock := if m.lock == Some(w) then None else m.lock,
          lost := if k.Injected? && k.items != [] then m.lost + [k.items[0].message] else m.lost)
  }

  function Step(m: Machine, e: Event): Machine {
    match e
    case Queue(binding, message) => Queued(m, binding, message)
    case Fetch(w, binding) => Fetched(m, w, binding)
    case Check(w) => CheckedOne(m, w)
    case Inject(w) => InjectedOne(m, w)
    case Record(w) => Recorded(m, w)
    case Ack(w) => Acked(m, w)
    case Die(w) => Died(m, w)
  }

  function Steps(m: Machine, es: seq<Event>): Machine
    decreases es
  {
    if es == [] then m else Steps(Step(m, es[0]), es[1..])
  }

  // ---- what every step keeps ----

  function Ids(items: seq<Delivery>): set<nat> {
    set k | 0 <= k < |items| :: items[k].id
  }

  ghost predicate DeliveriesOk(deliveries: seq<Delivery>, journal: set<nat>, injected: seq<nat>) {
    && (forall i :: 0 <= i < |deliveries| ==> deliveries[i].id == i)
    && (forall i, j :: 0 <= i < j < |deliveries| ==> deliveries[i].message != deliveries[j].message)
    && (forall i :: 0 <= i < |deliveries| && deliveries[i].acknowledged ==> deliveries[i].message in journal)
    && (forall x :: x in journal ==> x in injected)
    && (forall q :: 0 <= q < |injected| ==> Known(deliveries, injected[q]))
  }

  predicate Known(deliveries: seq<Delivery>, message: nat) {
    exists i :: 0 <= i < |deliveries| && deliveries[i].message == message
  }

  /** A worker's items are deliveries of its binding, oldest first, and whatever it is not going to send is
      already in the journal. */
  ghost predicate ItemsOk(deliveries: seq<Delivery>, journal: set<nat>, k: Worker)
    requires !k.Resting?
  {
    && k.upto <= |deliveries|
    && (forall a :: 0 <= a < |k.items| ==>
          var d := k.items[a]; d.id < k.upto && deliveries[d.id].message == d.message && deliveries[d.id].binding == d.binding == k.binding)
    && (forall a, b :: 0 <= a < b < |k.items| ==> k.items[a].id < k.items[b].id)
    && (forall i :: 0 <= i < k.upto && deliveries[i].binding == k.binding && deliveries[i].message !in journal ==> i in Ids(k.items))
  }

  ghost predicate WorkerOk(m: Machine, w: nat)
    requires w < |m.workers|
  {
    var k := m.workers[w];
    && (k.Checked? || k.Injected? <==> m.lock == Some(w))
    && (!k.Resting? ==> ItemsOk(m.deliveries, m.journal, k))
    && (k.Checked? || k.Injected? || k.Sent? ==> k.items != [])
    && (k.Checked? || k.Injected? ==> k.items[0].message !in m.journal)
    && (k.Sent? ==> k.items[0].message in m.journal)
  }

  /** The injection under way and not journaled yet, if there is one. */
  function InFlight(m: Machine): Option<nat> {
    if m.lock.Some? && m.lock.value < |m.workers| && m.workers[m.lock.value].Injected? && m.workers[m.lock.value].items != []
    then Some(m.workers[m.lock.value].items[0].message)
    else None
  }

  /** Every injection is accounted for: journaled, under way, or lost with its worker. */
  ghost predicate Accounted(m: Machine) {
    forall x :: multiset(m.injected)[x]
      == multiset(m.lost)[x] + (if x in m.journal then 1 else 0) + (if InFlight(m) == Some(x) then 1 else 0)
  }

  /** A Message is first injected only after every Message queued before it for its binding. */
  ghost predicate InOrder(deliveries: seq<Delivery>, injected: seq<nat>) {
    forall i, j, q ::
      (0 <= i < j < |deliveries| && deliveries[i].binding == deliveries[j].binding
       && 0 <= q < |injected| && injected[q] == deliveries[j].message)
      ==> deliveries[i].message in injected[..q]
  }

  ghost predicate Sound(m: Machine) {
    && DeliveriesOk(m.deliveries, m.journal, m.injected)
    && (forall w :: 0 <= w < |m.workers| ==> WorkerOk(m, w))
    && (m.lock.Some? ==> m.lock.value < |m.workers|)
    && Accounted(m)
    && InOrder(m.deliveries, m.injected)
  }

  /** The daemon queues a Message only for its Thread's submitter, so never for two bindings. */
  predicate Allowed(m: Machine, e: Event) {
    e.Queue? ==> forall i :: 0 <= i < |m.deliveries| && m.deliveries[i].message == e.message ==> m.deliveries[i].binding == e.binding
  }

  predicate AllAllowed(m: Machine, es: seq<Event>)
    decreases es
  {
    es == [] || (Allowed(m, es[0]) && AllAllowed(Step(m, es[0]), es[1..]))
  }

  lemma QueuedDeliveries(m: Machine, d: Delivery)
    requires DeliveriesOk(m.deliveries, m.journal, m.injected) && InOrder(m.deliveries, m.injected)
    requires d.id == |m.deliveries| && !d.acknowledged
    requires forall i :: 0 <= i < |m.deliveries| ==> m.deliveries[i].message != d.message
    ensures DeliveriesOk(m.deliveries + [d], m.journal, m.injected) && InOrder(m.deliveries + [d], m.injected)
  {
    var n, all := |m.deliveries|, m.deliveries + [d];
    assert forall i :: 0 <= i < n ==> all[i] == m.deliveries[i];
    forall q | 0 <= q < |m.injected| ensures Known(all, m.injected[q]) && m.injected[q] != d.message {
      assert Known(m.deliveries, m.injected[q]);
      var i :| 0 <= i < n && m.deliveries[i].message == m.injected[q];
      assert all[i].message == m.injected[q];
    }
  }

  lemma QueueIsSound(m: Machine, binding: nat, message: nat)
    requires Sound(m) && Allowed(m, Queue(binding, message))
    ensures Sound(Queued(m, binding, message))
  {
    var t := Queued(m, binding, message);
    if t != m {
      var d := Delivery(|m.deliveries|, binding, message, false);
      assert t.deliveries == m.deliveries + [d];
      QueuedDeliveries(m, d);
      assert InFlight(t) == InFlight(m);
      hide DeliveriesOk, InOrder, InFlight, Pending;
      forall w | 0 <= w < |t.workers| ensures WorkerOk(t, w) {
        assert WorkerOk(m, w);
        if !m.workers[w].Resting? { MoreDeliveries(m.deliveries, d, m.journal, m.workers[w]); }
      }
    }
  }

  lemma MoreDeliveries(deliveries: seq<Delivery>, d: Delivery, journal: set<nat>, k: Worker)
    requires !k.Resting? && ItemsOk(deliveries, journal, k)
    ensures ItemsOk(deliveries + [d], journal, k)
  {
  }

  lemma {:induction false} PendingFacts(deliveries: seq<Delivery>, binding: nat)
    requires forall i :: 0 <= i < |deliveries| ==> deliveries[i].id == i
    ensures var p := Pending(deliveries, binding);
      && (forall a :: 0 <= a < |p| ==> p[a].id < |deliveries| && deliveries[p[a].id] == p[a] && p[a].binding == binding)
      && (forall a, b :: 0 <= a < b < |p| ==> p[a].id < p[b].id)
      && (forall i :: 0 <= i < |deliveries| && deliveries[i].binding == binding && !deliveries[i].acknowledged ==> i in Ids(p))
  {
    if deliveries != [] {
      var n := |deliveries| - 1;
      PendingFacts(deliveries[..n], binding);
      var before, p := Pending(deliveries[..n], binding), Pending(deliveries, binding);
      forall i | 0 <= i < |deliveries| && deliveries[i].binding == binding && !deliveries[i].acknowledged ensures i in Ids(p) {
        if i < n {
          assert i in Ids(before);
          var a :| 0 <= a < |before| && before[a].id == i;
          assert p[a] == before[a];
        } else {
          assert p[|p| - 1].id == i;
        }
      }
    }
  }

  lemma FetchIsSound(m: Machine, w: nat, binding: nat)
    requires Sound(m)
    ensures Sound(Fetched(m, w, binding))
  {
    var t := Fetched(m, w, binding);
    if t != m {
      PendingFacts(m.deliveries, binding);
      assert WorkerOk(m, w);
      assert InFlight(t) == InFlight(m);
      forall v | 0 <= v < |t.workers| ensures WorkerOk(t, v) { assert WorkerOk(m, v); }
    }
  }

  lemma CheckIsSound(m: Machine, w: nat)
    requires Sound(m)
    ensures Sound(CheckedOne(m, w))
  {
    var t := CheckedOne(m, w);
    if t != m {
      assert WorkerOk(m, w);
      assert InFlight(t) == InFlight(m) == None;
      forall v | 0 <= v < |t.workers| ensures WorkerOk(t, v) { assert WorkerOk(m, v); }
    }
  }

  /** Everything queued before the item a worker is about to inject is in the journal already. */
  lemma EarlierAreJournaled(m: Machine, w: nat, i: nat)
    requires Sound(m) && Busy(m, w) && m.workers[w].Checked?
    requires i < |m.deliveries| && i < m.workers[w].items[0].id && m.deliveries[i].binding == m.workers[w].binding
    ensures m.deliveries[i].message in m.journal
  {
    var k := m.workers[w];
    assert WorkerOk(m, w) && ItemsOk(m.deliveries, m.journal, k);
    EarlierIsNoItem(m.deliveries, m.journal, k, i);
  }

  lemma EarlierIsNoItem(deliveries: seq<Delivery>, journal: set<nat>, k: Worker, i: nat)
    requires !k.Resting? && k.items != [] && ItemsOk(deliveries, journal, k) && i < k.items[0].id
    ensures i !in Ids(k.items)
  {
  }

  lemma InjectIsSound(m: Machine, w: nat)
    requires Sound(m)
    ensures Sound(InjectedOne(m, w))
  {
    var t := InjectedOne(m, w);
    if t != m {
      assert WorkerOk(m, w);
      var d := m.workers[w].items[0];
      assert InFlight(m) == None && InFlight(t) == Some(d.message);
      InjectCounts(m, t, d.message);
      InjectOrder(m, w);
      forall v | 0 <= v < |t.workers| ensures WorkerOk(t, v) { assert WorkerOk(m, v); }
      forall q | 0 <= q < |t.injected| ensures Known(t.deliveries, t.injected[q]) {
        if q == |m.injected| {
          assert t.deliveries[d.id].message == t.injected[q];
        } else {
          assert Known(m.deliveries, m.injected[q]);
        }
      }
    }
  }

  lemma InjectCounts(m: Machine, t: Machine, x: nat)
    requires Accounted(m) && InFlight(m) == None && InFlight(t) == Some(x)
    requires t.injected == m.injected + [x] && t.lost == m.lost && t.journal == m.journal
    ensures Accounted(t)
  {
    assert multiset(t.injected) == multiset(m.injected) + multiset{x};
  }

  lemma InjectOrder(m: Machine, w: nat)
    requires Sound(m) && Busy(m, w) && m.workers[w].Checked?
    ensures InOrder(m.deliveries, InjectedOne(m, w).injected)
  {
    var t := InjectedOne(m, w);
    assert WorkerOk(m, w);
    var d := m.workers[w].items[0];
    forall i, j, q | 0 <= i < j < |t.deliveries| && t.deliveries[i].binding == t.deliveries[j].binding && 0 <= q < |t.injected|
        && t.injected[q] == t.deliveries[j].message
      ensures t.deliveries[i].message in t.injected[..q]
    {
      if q < |m.injected| {
        assert t.injected[..q] == m.injected[..q];
      } else {
        assert t.deliveries[d.id].message == d.message;
        assert j == d.id;
        EarlierAreJournaled(m, w, i);
        assert t.injected[..q] == m.injected;
      }
    }
  }

  lemma RecordIsSound(m: Machine, w: nat)
    requires Sound(m)
    ensures Sound(Recorded(m, w))
  {
    var t := Recorded(m, w);
    if t != m {
      assert WorkerOk(m, w);
      var x := m.workers[w].items[0].message;
      assert InFlight(m) == Some(x) && InFlight(t) == None;
      assert multiset(m.injected)[x] > 0;
      forall v | 0 <= v < |t.workers| ensures WorkerOk(t, v) { assert WorkerOk(m, v); }
    }
  }

  lemma AckIsSound(m: Machine, w: nat)
    requires Sound(m)
    ensures Sound(Acked(m, w))
  {
    var t := Acked(m, w);
    if t != m {
      assert WorkerOk(m, w);
      var k := m.workers[w];
      var d := k.items[0];
      assert DeliveryIndex(m.deliveries, d.id) == d.id;
      assert t.deliveries == m.deliveries[d.id := m.deliveries[d.id].(acknowledged := true)];
      assert InFlight(t) == InFlight(m);
      AckKeepsDeliveries(m, t, d.id);
      AckKeepsItems(m, k);
      forall v | 0 <= v < |t.workers| ensures WorkerOk(t, v) {
        assert WorkerOk(m, v);
        if v != w && !t.workers[v].Resting? { SameItems(m.deliveries, t.deliveries, m.journal, t.workers[v]); }
        if v == w { SameItems(m.deliveries, t.deliveries, m.journal, t.workers[w]); }
      }
    }
  }

  lemma AckKeepsDeliveries(m: Machine, t: Machine, i: nat)
    requires Sound(m) && i < |m.deliveries| && m.deliveries[i].message in m.journal
    requires t.deliveries == m.deliveries[i := m.deliveries[i].(acknowledged := true)] && t.journal == m.journal && t.injected == m.injected
    ensures DeliveriesOk(t.deliveries, t.journal, t.injected) && InOrder(t.deliveries, t.injected)
  {
    forall q | 0 <= q < |t.injected| ensures Known(t.deliveries, t.injected[q]) {
      assert Known(m.deliveries, m.injected[q]);
      var j :| 0 <= j < |m.deliveries| && m.deliveries[j].message == m.injected[q];
      assert t.deliveries[j].message == t.injected[q];
    }
  }

  /** Having sent the first, the worker goes on with the rest. */
  lemma AckKeepsItems(m: Machine, k: Worker)
    requires k.Sent? && k.items != [] && ItemsOk(m.deliveries, m.journal, k) && k.items[0].message in m.journal
    ensures ItemsOk(m.deliveries, m.journal, Sending(k.binding, k.items[1..], k.upto))
  {
    forall i | 0 <= i < k.upto && m.deliveries[i].binding == k.binding && m.deliveries[i].message !in m.journal
      ensures i in Ids(k.items[1..])
    {
      assert i in Ids(k.items);
      var a :| 0 <= a < |k.items| && k.items[a].id == i;
      assert a > 0 && k.items[1..][a - 1].id == i;
    }
  }

  lemma SameItems(a: seq<Delivery>, b: seq<Delivery>, journal: set<nat>, k: Worker)
    requires !k.Resting? && ItemsOk(a, journal, k) && |a| == |b|
    requires forall i :: 0 <= i < |a| ==> a[i].message == b[i].message && a[i].binding == b[i].binding
    ensures ItemsOk(b, journal, k)
  {
  }

  lemma DieIsSound(m: Machine, w: nat)
    requires Sound(m)
    ensures Sound(Died(m, w))
  {
    var t := Died(m, w);
    if w < |m.workers| {
      assert WorkerOk(m, w);
      DeathCounts(m, w);
      forall v | 0 <= v < |t.workers| ensures WorkerOk(t, v) { assert WorkerOk(m, v); }
    }
  }

  lemma DeathCounts(m: Machine, w: nat)
    requires Sound(m) && w < |m.workers|
    ensures Accounted(Died(m, w))
  {
    var t := Died(m, w);
    assert WorkerOk(m, w);
    if m.workers[w].Injected? {
      var x := m.workers[w].items[0].message;
      assert multiset(t.lost) == multiset(m.lost) + multiset{x};
      assert InFlight(m) == Some(x) && InFlight(t) == None;
    } else {
      assert InFlight(m) == InFlight(t);
    }
  }

  lemma {:induction false} StepIsSound(m: Machine, e: Event)
    requires Sound(m) && Allowed(m, e)
    ensures Sound(Step(m, e))
  {
    hide Sound, Queued, Fetched, CheckedOne, InjectedOne, Recorded, Acked, Died;
    match e
    case Queue(binding, message) => QueueIsSound(m, binding, message);
    case Fetch(w, binding) => FetchIsSound(m, w, binding);
    case Check(w) => CheckIsSound(m, w);
    case Inject(w) => InjectIsSound(m, w);
    case Record(w) => RecordIsSound(m, w);
    case Ack(w) => AckIsSound(m, w);
    case Die(w) => DieIsSound(m, w);
  }

  lemma StartIsSound(workers: nat)
    ensures Sound(Start(workers))
  {
  }

  lemma {:induction false} RunsAreSound(m: Machine, es: seq<Event>)
    requires Sound(m) && AllAllowed(m, es)
    ensures Sound(Steps(m, es))
    decreases es
  {
    if es != [] {
      hide Sound, Step;
      StepIsSound(m, es[0]);
      RunsAreSound(Step(m, es[0]), es[1..]);
    }
  }

  // ---- what that means ----

  /** Over every run: acknowledged implies journaled implies injected; injections of a Message are exactly
      those lost with a worker that died before journaling, plus the one journaled or under way, so at most one
      more than those deaths; first injections follow the order of queueing; one delivery per Message. */
  lemma {:induction false} DeliveryHolds(workers: nat, es: seq<Event>)
    requires AllAllowed(Start(workers), es)
    ensures var m := Steps(Start(workers), es);
      && (forall i :: 0 <= i < |m.deliveries| && m.deliveries[i].acknowledged ==> m.deliveries[i].message in m.journal)
      && (forall x :: x in m.journal ==> x in m.injected)
      && (forall x :: multiset(m.injected)[x] <= 1 + multiset(m.lost)[x])
      && (forall x :: x in m.journal ==> multiset(m.injected)[x] == 1 + multiset(m.lost)[x])
      && InOrder(m.deliveries, m.injected)
      && (forall i, j :: 0 <= i < j < |m.deliveries| ==> m.deliveries[i].message != m.deliveries[j].message)
  {
    StartIsSound(workers);
    RunsAreSound(Start(workers), es);
    var m := Steps(Start(workers), es);
    forall x ensures multiset(m.injected)[x] <= 1 + multiset(m.lost)[x]
      && (x in m.journal ==> multiset(m.injected)[x] == 1 + multiset(m.lost)[x])
    {
      assert x in m.journal ==> InFlight(m) != Some(x) by {
        if m.lock.Some? { assert WorkerOk(m, m.lock.value); }
      }
    }
  }

  lemma JournaledStays(m: Machine, e: Event, x: nat)
    requires Sound(m) && x in m.journal
    ensures x in Step(m, e).journal
    ensures multiset(Step(m, e).injected)[x] == multiset(m.injected)[x]
  {
    if e.Inject? && Busy(m, e.worker) && m.workers[e.worker].Checked? {
      assert WorkerOk(m, e.worker);
      var y := m.workers[e.worker].items[0].message;
      assert multiset(Step(m, e).injected) == multiset(m.injected) + multiset{y};
    }
  }

  /** A Message in the journal is never injected again, whatever dies and whoever retries. */
  lemma {:induction false} JournaledIsNeverInjectedAgain(m: Machine, es: seq<Event>, x: nat)
    requires Sound(m) && AllAllowed(m, es) && x in m.journal
    ensures x in Steps(m, es).journal && multiset(Steps(m, es).injected)[x] == multiset(m.injected)[x]
    decreases es
  {
    if es != [] {
      StepIsSound(m, es[0]);
      JournaledStays(m, es[0], x);
      JournaledIsNeverInjectedAgain(Step(m, es[0]), es[1..], x);
    }
  }
}
