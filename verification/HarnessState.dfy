/**
 * The daemon's routing state (packages/daemon/src/harness-state-store.ts): which harness sessions follow a
 * Thread, and which Messages they still have to be handed. Both are JavaScript Maps, so entries keep the
 * order in which they were first set, in memory and in the file.
 */
module HarnessState {
  import opened Common

  datatype Binding = Binding(id: nat, thread: string, harness: string, session: string, retried: Option<nat>)
  datatype Delivery = Delivery(id: nat, binding: nat, message: nat, acknowledged: bool)
  datatype State = State(bindings: seq<Binding>, deliveries: seq<Delivery>)

  const EMPTY := State([], [])

  function BindingIndex(bindings: seq<Binding>, id: nat): (n: nat)
    ensures n <= |bindings|
    ensures n < |bindings| ==> bindings[n].id == id
    ensures forall i :: 0 <= i < n ==> bindings[i].id != id
  {
    FirstWhere(bindings, (b: Binding) => b.id == id)
  }

  function DeliveryIndex(deliveries: seq<Delivery>, id: nat): (n: nat)
    ensures n <= |deliveries|
    ensures n < |deliveries| ==> deliveries[n].id == id
    ensures forall i :: 0 <= i < n ==> deliveries[i].id != id
  {
    FirstWhere(deliveries, (d: Delivery) => d.id == id)
  }

  /** The first binding of a Thread, its submitter. */
  function Submitter(bindings: seq<Binding>, thread: string): (n: nat)
    ensures n <= |bindings|
    ensures n < |bindings| ==> bindings[n].thread == thread
    ensures forall i :: 0 <= i < n ==> bindings[i].thread != thread
  {
    FirstWhere(bindings, (b: Binding) => b.thread == thread)
  }

  function BoundIndex(bindings: seq<Binding>, thread: string, harness: string, session: string): (n: nat)
    ensures n <= |bindings|
    ensures n < |bindings| ==> bindings[n].thread == thread && bindings[n].harness == harness && bindings[n].session == session
    ensures forall i :: 0 <= i < n ==> !(bindings[i].thread == thread && bindings[i].harness == harness && bindings[i].session == session)
  {
    FirstWhere(bindings, (b: Binding) => b.thread == thread && b.harness == harness && b.session == session)
  }

  function PairIndex(deliveries: seq<Delivery>, binding: nat, message: nat): (n: nat)
    ensures n <= |deliveries|
    ensures n < |deliveries| ==> deliveries[n].binding == binding && deliveries[n].message == message
    ensures forall i :: 0 <= i < n ==> !(deliveries[i].binding == binding && deliveries[i].message == message)
  {
    FirstWhere(deliveries, (d: Delivery) => d.binding == binding && d.message == message)
  }

  function Bind(s: State, thread: string, harness: string, session: string, id: nat): State {
    if BoundIndex(s.bindings, thread, harness, session) < |s.bindings| then s
    else s.(bindings := s.bindings + [Binding(id, thread, harness, session, None)])
  }

  function Enqueue(s: State, binding: nat, message: nat, id: nat): State {
    if PairIndex(s.deliveries, binding, message) < |s.deliveries| then s
    else s.(deliveries := s.deliveries + [Delivery(id, binding, message, false)])
  }

  function Acknowledge(s: State, id: nat): State {
    var n := DeliveryIndex(s.deliveries, id);
    if n == |s.deliveries| then s else s.(deliveries := s.deliveries[n := s.deliveries[n].(acknowledged := true)])
  }

  /** Pending deliveries of a binding, oldest first. */
  function Pending(deliveries: seq<Delivery>, binding: nat): seq<Delivery> {
    if deliveries == [] then []
    else
      Pending(deliveries[..|deliveries| - 1], binding)
      + (var d := deliveries[|deliveries| - 1]; if d.binding == binding && !d.acknowledged then [d] else [])
  }

  predicate Acknowledged(s: State, binding: nat, message: nat) {
    exists i :: 0 <= i < |s.deliveries| && s.deliveries[i] == Delivery(s.deliveries[i].id, binding, message, true)
  }

  /** Whether this approved Message still grants its retry, and the state that records that it has. */
  function Consume(s: State, binding: nat, message: nat): (State, bool) {
    var n := BindingIndex(s.bindings, binding);
    if n == |s.bindings| || s.bindings[n].retried == Some(message) then (s, false)
    else (s.(bindings := s.bindings[n := s.bindings[n].(retried := Some(message))]), true)
  }

  predicate IsBinding(bindings: seq<Binding>, n: nat, id: nat) {
    n < |bindings| && bindings[n].id == id && forall i :: 0 <= i < n ==> bindings[i].id != id
  }

  /** A retry is granted exactly when the binding is known and what it recorded last is not this Message, whatever
      else it recorded; and then the record is this Message. */
  lemma ConsumeExactly(s: State, binding: nat, message: nat)
    ensures var (t, granted) := Consume(s, binding, message);
      && (granted <==> exists n: nat :: IsBinding(s.bindings, n, binding) && s.bindings[n].retried != Some(message))
      && (!granted ==> t == s)
      && t.deliveries == s.deliveries && |t.bindings| == |s.bindings|
      && (granted ==> forall n :: 0 <= n < |s.bindings| ==>
            t.bindings[n] == if IsBinding(s.bindings, n, binding) then s.bindings[n].(retried := Some(message)) else s.bindings[n])
  {
    var n := BindingIndex(s.bindings, binding);
    if n < |s.bindings| { assert IsBinding(s.bindings, n, binding); }
    forall k: nat | IsBinding(s.bindings, k, binding) ensures k == n {}
  }

  /** Binding a session again changes nothing; a new one comes last, and nothing else changes. */
  lemma BindExactly(s: State, thread: string, harness: string, session: string, id: nat)
    ensures var t := Bind(s, thread, harness, session, id);
      && t.deliveries == s.deliveries
      && (if exists n :: 0 <= n < |s.bindings| && Names(s.bindings[n], thread, harness, session) then t == s
          else t.bindings == s.bindings + [Binding(id, thread, harness, session, None)])
      && exists n :: 0 <= n < |t.bindings| && Names(t.bindings[n], thread, harness, session)
  {
    var n := BoundIndex(s.bindings, thread, harness, session);
    if n < |s.bindings| {
      assert Names(s.bindings[n], thread, harness, session);
    } else {
      assert Names(Bind(s, thread, harness, session, id).bindings[|s.bindings|], thread, harness, session);
    }
  }

  predicate Names(b: Binding, thread: string, harness: string, session: string) {
    b.thread == thread && b.harness == harness && b.session == session
  }

  /** Queueing a Message for a binding again changes nothing; a new delivery comes last, unacknowledged. */
  lemma EnqueueExactly(s: State, binding: nat, message: nat, id: nat)
    ensures var t := Enqueue(s, binding, message, id);
      && t.bindings == s.bindings
      && (if exists i :: 0 <= i < |s.deliveries| && s.deliveries[i].binding == binding && s.deliveries[i].message == message then t == s
          else t.deliveries == s.deliveries + [Delivery(id, binding, message, false)])
      && exists i :: 0 <= i < |t.deliveries| && t.deliveries[i].binding == binding && t.deliveries[i].message == message
  {
    var n := PairIndex(s.deliveries, binding, message);
    if n == |s.deliveries| { assert Enqueue(s, binding, message, id).deliveries[n].message == message; }
  }

  /** An acknowledgement marks the delivery with this identity and no other. */
  lemma AcknowledgeExactly(s: State, id: nat)
    requires forall i, j :: 0 <= i < j < |s.deliveries| ==> s.deliveries[i].id != s.deliveries[j].id
    ensures var t := Acknowledge(s, id);
      && t.bindings == s.bindings && |t.deliveries| == |s.deliveries|
      && forall i :: 0 <= i < |s.deliveries| ==>
           t.deliveries[i] == s.deliveries[i].(acknowledged := s.deliveries[i].acknowledged || s.deliveries[i].id == id)
  {
    var n := DeliveryIndex(s.deliveries, id);
    assert forall i :: 0 <= i < |s.deliveries| && s.deliveries[i].id == id ==> i == n;
  }

  function BindingsWithout(bindings: seq<Binding>, thread: string): seq<Binding> {
    if bindings == [] then []
    else
      BindingsWithout(bindings[..|bindings| - 1], thread)
      + (if bindings[|bindings| - 1].thread == thread then [] else [bindings[|bindings| - 1]])
  }

  predicate Belongs(bindings: seq<Binding>, binding: nat, thread: string) {
    exists i :: 0 <= i < |bindings| && bindings[i].id == binding && bindings[i].thread == thread
  }

  function DeliveriesWithout(deliveries: seq<Delivery>, bindings: seq<Binding>, thread: string): seq<Delivery> {
    if deliveries == [] then []
    else
      var d := deliveries[|deliveries| - 1];
      DeliveriesWithout(deliveries[..|deliveries| - 1], bindings, thread) + (if Belongs(bindings, d.binding, thread) then [] else [d])
  }

  function DeleteThread(s: State, thread: string): State {
    State(BindingsWithout(s.bindings, thread), DeliveriesWithout(s.deliveries, s.bindings, thread))
  }

  lemma {:induction false} WithoutOfTwo(a: seq<Binding>, b: seq<Binding>, thread: string)
    ensures BindingsWithout(a + b, thread) == BindingsWithout(a, thread) + BindingsWithout(b, thread)
    decreases |b|
  {
    if b == [] {
      assert a + b == a;
    } else {
      var n := |b| - 1;
      assert (a + b)[..|a + b| - 1] == a + b[..n];
      WithoutOfTwo(a, b[..n], thread);
    }
  }

  lemma {:induction false} DeliveriesOfTwo(a: seq<Delivery>, b: seq<Delivery>, bindings: seq<Binding>, thread: string)
    ensures DeliveriesWithout(a + b, bindings, thread) == DeliveriesWithout(a, bindings, thread) + DeliveriesWithout(b, bindings, thread)
    decreases |b|
  {
    if b == [] {
      assert a + b == a;
    } else {
      hide Belongs;
      var n := |b| - 1;
      assert (a + b)[..|a + b| - 1] == a + b[..n];
      DeliveriesOfTwo(a, b[..n], bindings, thread);
    }
  }

  lemma {:induction false} LeftExactly(deliveries: seq<Delivery>, bindings: seq<Binding>, thread: string)
    ensures forall d :: d in DeliveriesWithout(deliveries, bindings, thread) <==> d in deliveries && !Belongs(bindings, d.binding, thread)
  {
    if deliveries != [] {
      hide Belongs;
      LeftExactly(deliveries[..|deliveries| - 1], bindings, thread);
      assert deliveries == deliveries[..|deliveries| - 1] + [deliveries[|deliveries| - 1]];
    }
  }

  lemma {:induction false} BoundExactly(bindings: seq<Binding>, thread: string)
    ensures forall b :: b in BindingsWithout(bindings, thread) <==> b in bindings && b.thread != thread
  {
    if bindings != [] {
      BoundExactly(bindings[..|bindings| - 1], thread);
      assert bindings == bindings[..|bindings| - 1] + [bindings[|bindings| - 1]];
    }
  }

  /** Deleting a Thread takes its bindings and exactly the deliveries to them; the rest stays in order. */
  lemma DeleteExactly(s: State, thread: string)
    ensures var t := DeleteThread(s, thread);
      && (forall b :: b in t.bindings <==> b in s.bindings && b.thread != thread)
      && (forall d :: d in t.deliveries <==> d in s.deliveries && !(exists b :: b in s.bindings && b.id == d.binding && b.thread == thread))
      && (forall k :: 0 <= k <= |s.bindings| ==> t.bindings == BindingsWithout(s.bindings[..k], thread) + BindingsWithout(s.bindings[k..], thread))
      && (forall k :: 0 <= k <= |s.deliveries| ==>
            t.deliveries == DeliveriesWithout(s.deliveries[..k], s.bindings, thread) + DeliveriesWithout(s.deliveries[k..], s.bindings, thread))
  {
    BoundExactly(s.bindings, thread);
    LeftExactly(s.deliveries, s.bindings, thread);
    forall d: Delivery ensures Belongs(s.bindings, d.binding, thread) <==> exists b :: b in s.bindings && b.id == d.binding && b.thread == thread {
      if Belongs(s.bindings, d.binding, thread) {
        var i :| 0 <= i < |s.bindings| && s.bindings[i].id == d.binding && s.bindings[i].thread == thread;
        assert s.bindings[i] in s.bindings;
      }
    }
    forall k | 0 <= k <= |s.bindings| ensures DeleteThread(s, thread).bindings == BindingsWithout(s.bindings[..k], thread) + BindingsWithout(s.bindings[k..], thread) {
      assert s.bindings == s.bindings[..k] + s.bindings[k..];
      WithoutOfTwo(s.bindings[..k], s.bindings[k..], thread);
    }
    forall k | 0 <= k <= |s.deliveries|
      ensures DeleteThread(s, thread).deliveries == DeliveriesWithout(s.deliveries[..k], s.bindings, thread) + DeliveriesWithout(s.deliveries[k..], s.bindings, thread)
    {
      assert s.deliveries == s.deliveries[..k] + s.deliveries[k..];
      DeliveriesOfTwo(s.deliveries[..k], s.deliveries[k..], s.bindings, thread);
    }
  }

  /** `HarnessStateStore`: every change is written out before it is answered. */
  class HarnessStateStore {
    var bindings: seq<Binding>
    var deliveries: seq<Delivery>

    /** The state file. */
    var file: State

    /** Identities handed out so far. */
    var next: nat

    ghost function View(): State
      reads this
    {
      State(bindings, deliveries)
    }

    /** What is on disk is what is in memory. */
    ghost predicate Valid()
      reads this
    {
      file == View()
    }

    /** load: identities never used before start at `next` */
    constructor (file: State, next: nat)
      ensures Valid() && View() == file && this.next == next
    {
      this.file := file;
      bindings, deliveries := file.bindings, file.deliveries;
      this.next := next;
    }

    method Persist()
      modifies this`file
      ensures Valid()
    {
      file := State(bindings, deliveries);
    }

    method BindSession(thread: string, harness: string, session: string) returns (binding: Binding)
      requires Valid()
      modifies this
      ensures Valid() && View() == Bind(old(View()), thread, harness, session, old(next))
      ensures binding in bindings && binding.thread == thread && binding.harness == harness && binding.session == session
      ensures next >= old(next)
    {
      var n := BoundIndex(bindings, thread, harness, session);
      if n < |bindings| { return bindings[n]; }
      binding := Binding(next, thread, harness, session, None);
      next := next + 1;
      bindings := bindings + [binding];
      Persist();
    }

    method EnqueueMessage(binding: nat, message: nat) returns (delivery: Delivery)
      requires Valid()
      modifies this
      ensures Valid() && View() == Enqueue(old(View()), binding, message, old(next))
      ensures delivery in deliveries && delivery.binding == binding && delivery.message == message
    {
      var n := PairIndex(deliveries, binding, message);
      if n < |deliveries| { return deliveries[n]; }
      delivery := Delivery(next, binding, message, false);
      next := next + 1;
      deliveries := deliveries + [delivery];
      Persist();
    }

    method PendingFor(binding: nat) returns (pending: seq<Delivery>)
      ensures pending == Pending(deliveries, binding)
    {
      pending := [];
      var i := 0;
      while i < |deliveries|
        invariant 0 <= i <= |deliveries|
        invariant pending == Pending(deliveries[..i], binding)
      {
        assert deliveries[..i + 1][..i] == deliveries[..i];
        if deliveries[i].binding == binding && !deliveries[i].acknowledged { pending := pending + [deliveries[i]]; }
        i := i + 1;
      }
      assert deliveries[..i] == deliveries;
    }

    method AcknowledgeDelivery(id: nat) returns (known: bool)
      requires Valid()
      modifies this
      ensures Valid() && View() == Acknowledge(old(View()), id)
      ensures known <==> DeliveryIndex(old(deliveries), id) < |old(deliveries)|
    {
      var n := DeliveryIndex(deliveries, id);
      if n == |deliveries| { return false; }
      if !deliveries[n].acknowledged {
        deliveries := deliveries[n := deliveries[n].(acknowledged := true)];
        Persist();
      } else {
        assert deliveries[n := deliveries[n].(acknowledged := true)] == deliveries;
      }
      known := true;
    }

    method ConsumeRetry(binding: nat, message: nat) returns (granted: bool)
      requires Valid()
      modifies this
      ensures Valid() && (View(), granted) == Consume(old(View()), binding, message)
      ensures granted <==> exists n: nat :: IsBinding(old(bindings), n, binding) && old(bindings)[n].retried != Some(message)
    {
      ConsumeExactly(View(), binding, message);
      var n := BindingIndex(bindings, binding);
      if n == |bindings| || bindings[n].retried == Some(message) { return false; }
      bindings := bindings[n := bindings[n].(retried := Some(message))];
      Persist();
      granted := true;
    }

    method DeleteThreadState(thread: string)
      requires Valid()
      modifies this
      ensures Valid() && View() == DeleteThread(old(View()), thread)
    {
      var kept := KeepDeliveries(thread);
      var left: seq<Binding> := [];
      var i := 0;
      while i < |bindings|
        invariant 0 <= i <= |bindings|
        invariant left == BindingsWithout(bindings[..i], thread)
      {
        assert bindings[..i + 1][..i] == bindings[..i];
        if bindings[i].thread != thread { left := left + [bindings[i]]; }
        i := i + 1;
      }
      assert bindings[..i] == bindings;
      bindings, deliveries := left, kept;
      Persist();
    }

    method KeepDeliveries(thread: string) returns (kept: seq<Delivery>)
      ensures kept == DeliveriesWithout(deliveries, bindings, thread)
    {
      kept := [];
      var i := 0;
      while i < |deliveries|
        invariant 0 <= i <= |deliveries|
        invariant kept == DeliveriesWithout(deliveries[..i], bindings, thread)
      {
        assert deliveries[..i + 1][..i] == deliveries[..i];
        if !Belongs(bindings, deliveries[i].binding, thread) { kept := kept + [deliveries[i]]; }
        i := i + 1;
      }
      assert deliveries[..i] == deliveries;
    }
  }
}
