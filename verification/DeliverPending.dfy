/**
 * `createDeliveredMessageStore` and `deliverPending` as they run when nothing dies: a journal updated in
 * place, and a loop of effects over one binding's deliveries.
 */
module DeliverPending {
  import opened Common
  import opened HarnessState

  /** `injected` is what the harness has been handed, in order. */
  class DeliveredMessageStore {
    var journal: set<nat>
    var injected: seq<nat>

    constructor ()
      ensures journal == {} && injected == []
    {
      journal, injected := {}, [];
    }

    method SendOnce(message: nat)
      modifies this
      ensures journal == old(journal) + {message}
      ensures injected == old(injected) + if message in old(journal) then [] else [message]
    {
      if message in journal {
        assert journal + {message} == journal;
        return;
      }
      injected := injected + [message];
      journal := journal + {message};
    }
  }

  /** The Messages of these deliveries that no journal knows, each once, in order. */
  function Unsent(items: seq<Delivery>, journal: set<nat>): seq<nat> {
    if items == [] then []
    else
      var last := items[|items| - 1];
      var before := items[..|items| - 1];
      Unsent(before, journal) + (if last.message in journal || Mentions(before, last.message) then [] else [last.message])
  }

  predicate Mentions(items: seq<Delivery>, message: nat) {
    exists i :: 0 <= i < |items| && items[i].message == message
  }

  function Messages(items: seq<Delivery>): set<nat> {
    set i | 0 <= i < |items| :: items[i].message
  }

  /** Deliveries are told apart by their identities. */
  ghost predicate DistinctIds(deliveries: seq<Delivery>) {
    forall i, j :: 0 <= i < j < |deliveries| ==> deliveries[i].id != deliveries[j].id
  }

  function AcknowledgeAll(deliveries: seq<Delivery>, binding: nat): (all: seq<Delivery>)
    ensures |all| == |deliveries|
  {
    seq(|deliveries|, i requires 0 <= i < |deliveries| =>
      deliveries[i].(acknowledged := deliveries[i].acknowledged || deliveries[i].binding == binding))
  }

  function AcknowledgeEach(deliveries: seq<Delivery>, items: seq<Delivery>): seq<Delivery> {
    if items == [] then deliveries
    else Acknowledge(State([], AcknowledgeEach(deliveries, items[..|items| - 1])), items[|items| - 1].id).deliveries
  }

  /** These deliveries, with those among the items acknowledged. */
  ghost predicate AcknowledgedAmong(deliveries: seq<Delivery>, items: seq<Delivery>, after: seq<Delivery>) {
    && |after| == |deliveries|
    && forall i :: 0 <= i < |deliveries| ==>
         after[i] == deliveries[i].(acknowledged := deliveries[i].acknowledged || deliveries[i] in items)
  }

  lemma OneMoreAcknowledged(deliveries: seq<Delivery>, items: seq<Delivery>, before: seq<Delivery>, d: Delivery)
    requires DistinctIds(deliveries) && d in deliveries && AcknowledgedAmong(deliveries, items, before)
    ensures AcknowledgedAmong(deliveries, items + [d], Acknowledge(State([], before), d.id).deliveries)
  {
    var k :| 0 <= k < |deliveries| && deliveries[k] == d;
    assert before[k].id == d.id;
    assert forall i :: 0 <= i < |deliveries| && i != k ==> before[i].id == deliveries[i].id != d.id;
    assert DeliveryIndex(before, d.id) == k;
  }

  /** Acknowledging each of some deliveries acknowledges those, and nothing else. */
  lemma {:induction false} EachIsAll(deliveries: seq<Delivery>, items: seq<Delivery>)
    requires DistinctIds(deliveries)
    requires forall a :: 0 <= a < |items| ==> items[a] in deliveries
    ensures AcknowledgedAmong(deliveries, items, AcknowledgeEach(deliveries, items))
  {
    if items != [] {
      hide AcknowledgedAmong;
      var n := |items| - 1;
      EachIsAll(deliveries, items[..n]);
      OneMoreAcknowledged(deliveries, items[..n], AcknowledgeEach(deliveries, items[..n]), items[n]);
      assert items == items[..n] + [items[n]];
    }
  }

  lemma {:induction false} PendingExactly(deliveries: seq<Delivery>, binding: nat)
    ensures forall d :: d in Pending(deliveries, binding) <==> d in deliveries && d.binding == binding && !d.acknowledged
  {
    if deliveries != [] {
      var n := |deliveries| - 1;
      PendingExactly(deliveries[..n], binding);
      assert deliveries == deliveries[..n] + [deliveries[n]];
    }
  }

  lemma NothingPending(deliveries: seq<Delivery>, binding: nat)
    requires forall i :: 0 <= i < |deliveries| && deliveries[i].binding == binding ==> deliveries[i].acknowledged
    ensures Pending(deliveries, binding) == []
  {
  }

  lemma PendingBecomesAll(deliveries: seq<Delivery>, binding: nat)
    requires DistinctIds(deliveries)
    ensures AcknowledgeEach(deliveries, Pending(deliveries, binding)) == AcknowledgeAll(deliveries, binding)
    ensures Pending(AcknowledgeAll(deliveries, binding), binding) == []
  {
    hide Pending, AcknowledgeEach, DistinctIds;
    var items := Pending(deliveries, binding);
    PendingExactly(deliveries, binding);
    forall a | 0 <= a < |items| ensures items[a] in deliveries { assert items[a] in items; }
    EachIsAll(deliveries, items);
    var after := AcknowledgeEach(deliveries, items);
    forall i | 0 <= i < |deliveries| ensures after[i] == AcknowledgeAll(deliveries, binding)[i] {
      assert deliveries[i] in deliveries;
    }
    NothingPending(AcknowledgeAll(deliveries, binding), binding);
  }

  lemma UnsentOne(items: seq<Delivery>, journal: set<nat>, i: nat)
    requires i < |items|
    ensures items[..i + 1][..i] == items[..i]
    ensures Unsent(items[..i + 1], journal) ==
      Unsent(items[..i], journal) + if items[i].message in journal + Messages(items[..i]) then [] else [items[i].message]
    ensures Messages(items[..i + 1]) == Messages(items[..i]) + {items[i].message}
  {
    var before := items[..i];
    assert items[..i + 1] == before + [items[i]] && (before + [items[i]])[..i] == before;
    assert items[i].message in Messages(before) <==> Mentions(before, items[i].message);
    forall x ensures x in Messages(items[..i + 1]) <==> x in Messages(before) + {items[i].message} {
      if x in Messages(before) {
        var k :| 0 <= k < |before| && before[k].message == x;
        assert items[..i + 1][k].message == x;
      }
      if x == items[i].message { assert items[..i + 1][i].message == x; }
    }
  }

  /** Deliver every pending Message in order, acknowledging after each injection: afterwards nothing of this
      binding is pending, other bindings are untouched, and the harness has been handed exactly the Messages
      it had not had, in the order they were queued. */
  method DeliverAll(store: HarnessStateStore, delivered: DeliveredMessageStore, binding: nat) returns (count: nat)
    requires store.Valid() && DistinctIds(store.deliveries)
    modifies store, delivered
    ensures store.Valid() && store.bindings == old(store.bindings)
    ensures store.deliveries == AcknowledgeAll(old(store.deliveries), binding)
    ensures Pending(store.deliveries, binding) == []
    ensures count == |Pending(old(store.deliveries), binding)|
    ensures delivered.injected == old(delivered.injected) + Unsent(Pending(old(store.deliveries), binding), old(delivered.journal))
    ensures delivered.journal == old(delivered.journal) + Messages(Pending(old(store.deliveries), binding))
  {
    hide *;
    ghost var deliveries, journal, injected := store.deliveries, delivered.journal, delivered.injected;
    var pending := store.PendingFor(binding);
    var i := 0;
    NothingYet(deliveries, pending, journal);
    while i < |pending|
      invariant 0 <= i <= |pending|
      invariant store.Valid() && store.bindings == old(store.bindings)
      invariant store.deliveries == AcknowledgeEach(deliveries, pending[..i])
      invariant delivered.injected == injected + Unsent(pending[..i], journal)
      invariant delivered.journal == journal + Messages(pending[..i])
    {
      UnsentOne(pending, journal, i);
      EachMore(deliveries, pending, i);
      DeliverOne(store, delivered, pending[i]);
      i := i + 1;
    }
    assert pending[..i] == pending;
    PendingBecomesAll(deliveries, binding);
    count := |pending|;
  }

  /** One turn of the loop: send, then acknowledge. */
  method DeliverOne(store: HarnessStateStore, delivered: DeliveredMessageStore, item: Delivery)
    requires store.Valid()
    modifies store, delivered
    ensures store.Valid() && store.bindings == old(store.bindings)
    ensures store.deliveries == Acknowledge(State([], old(store.deliveries)), item.id).deliveries
    ensures delivered.journal == old(delivered.journal) + {item.message}
    ensures delivered.injected == old(delivered.injected) + if item.message in old(delivered.journal) then [] else [item.message]
  {
    delivered.SendOnce(item.message);
    var known := store.AcknowledgeDelivery(item.id);
  }

  lemma NothingYet(deliveries: seq<Delivery>, items: seq<Delivery>, journal: set<nat>)
    ensures AcknowledgeEach(deliveries, items[..0]) == deliveries
    ensures Unsent(items[..0], journal) == [] && Messages(items[..0]) == {}
  {
  }

  lemma EachMore(deliveries: seq<Delivery>, items: seq<Delivery>, i: nat)
    requires i < |items|
    ensures AcknowledgeEach(deliveries, items[..i + 1])
      == Acknowledge(State([], AcknowledgeEach(deliveries, items[..i])), items[i].id).deliveries
  {
    assert items[..i + 1][..i] == items[..i];
  }
}
