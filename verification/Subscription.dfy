/**
 * Observing one Thread over reconnecting sockets (packages/daemon/src/thread-subscription.ts): epochs,
 * request versions, and callbacks that arrive in any order, from connections and reads that may be long out
 * of date.
 */
module Subscription {
  import opened Common

  datatype Stage = Dialing | Attached | Over

  /** One call of `connect`: its epoch, the reads it has started, and whether its listeners are attached. */
  datatype Connection = Connection(epoch: nat, request: nat, stage: Stage, listening: bool)

  /** A read still to be answered, and where its value would come from. */
  datatype Read = Read(connection: nat, version: nat)

  /** Where a delivered value came from. */
  datatype Value = Value(epoch: nat, version: nat)

  /** `armed` is the reconnect timer; `delivered` every onValue call. */
  datatype Machine = Machine(
    stopped: bool, generation: nat, armed: bool, connections: seq<Connection>, waiting: set<Read>, delivered: seq<Value>)

  /** subscribeThreadState has just called `connect`. */
  const START := Machine(false, 1, false, [Connection(1, 0, Dialing, false)], {}, [])

  datatype Event =
    | Timer
    | Connected(c: nat)
    | Notified(c: nat)
    | Subscribed(c: nat)
    | ConnectFails(c: nat, fatal: bool)
    | Disconnected(c: nat, fatal: bool)
    | ReadResolves(read: Read)
    | ReadFails(read: Read, fatal: bool)
    | Dispose

  /** Not stopped, and this is still the newest connection. */
  predicate Current(m: Machine, c: nat) {
    c < |m.connections| && !m.stopped && m.connections[c].epoch == m.generation
  }

  function Schedule(m: Machine): Machine {
    if m.stopped then m else m.(armed := true)
  }

  function Detach(m: Machine, c: nat): Machine
    requires c < |m.connections|
  {
    m.(connections := m.connections[c := m.connections[c].(listening := false, stage := Over)])
  }

  /** refresh: one more read, the newest of its connection */
  function Refresh(m: Machine, c: nat): Machine
    requires c < |m.connections|
  {
    var version := m.connections[c].request + 1;
    m.(connections := m.connections[c := m.connections[c].(request := version)], waiting := m.waiting + {Read(c, version)})
  }

  function TimerFired(m: Machine): Machine {
    if !m.armed then m
    else
      m.(armed := false, generation := m.generation + 1,
         connections := m.connections + [Connection(m.generation + 1, 0, Dialing, false)])
  }

  function Attach(m: Machine, c: nat): Machine {
    if c >= |m.connections| || !m.connections[c].stage.Dialing? then m
    else if !Current(m, c) then Detach(m, c)
    else m.(connections := m.connections[c := m.connections[c].(stage := Attached, listening := true)])
  }

  /** The `catch` of connect: the epoch is over, and only an ordinary failure dials again. */
  function Failed(m: Machine, c: nat, fatal: bool): Machine {
    if !Current(m, c) || m.connections[c].stage.Over? then m
    else
      var t := Detach(m, c).(generation := m.generation + 1);
      if fatal then t else Schedule(t)
  }

  function Lost(m: Machine, c: nat, fatal: bool): Machine {
    if !Current(m, c) || !m.connections[c].listening then m
    else
      var t := Detach(m, c).(generation := m.generation + 1);
      if fatal then t.(stopped := true) else Schedule(t)
  }

  /** A read may deliver only for the newest connection and as its newest read. */
  predicate Newest(m: Machine, r: Read) {
    Current(m, r.connection) && r.version == m.connections[r.connection].request
  }

  function Answered(m: Machine, r: Read): Machine {
    if r !in m.waiting then m
    else
      var t := m.(waiting := m.waiting - {r});
      if Newest(m, r) then t.(delivered := m.delivered + [Value(m.generation, r.version)]) else t
  }

  function Unread(m: Machine, r: Read, fatal: bool): Machine {
    if r !in m.waiting then m
    else
      var t := m.(waiting := m.waiting - {r});
      if Newest(m, r) && fatal then Detach(t, r.connection).(stopped := true, generation := m.generation + 1, armed := false) else t
  }

  function Step(m: Machine, e: Event): Machine {
    match e
    case Timer => TimerFired(m)
    case Connected(c) => Attach(m, c)
    case Notified(c) => if c < |m.connections| && m.connections[c].listening then Refresh(m, c) else m
    case Subscribed(c) => if Current(m, c) && m.connections[c].stage.Attached? then Refresh(m, c) else m
    case ConnectFails(c, fatal) => Failed(m, c, fatal)
    case Disconnected(c, fatal) => Lost(m, c, fatal)
    case ReadResolves(r) => Answered(m, r)
    case ReadFails(r, fatal) => Unread(m, r, fatal)
    case Dispose => m.(stopped := true, generation := m.generation + 1, armed := false)
  }

  function Steps(m: Machine, es: seq<Event>): Machine
    decreases es
  {
    if es == [] then m else Steps(Step(m, es[0]), es[1..])
  }

  // ---- what every step keeps ----

  predicate Before(a: Value, b: Value) {
    a.epoch < b.epoch || (a.epoch == b.epoch && a.version < b.version)
  }

  /** A connection's epoch, but for one that will never be current again, is the newest there is. */
  ghost predicate Sound(m: Machine) {
    && (forall c :: 0 <= c < |m.connections| ==> m.connections[c].epoch <= m.generation)
    && (forall c, d :: 0 <= c < d < |m.connections| ==> m.connections[c].epoch < m.connections[d].epoch)
    && (m.armed ==> !m.stopped && forall c :: 0 <= c < |m.connections| ==> m.connections[c].epoch < m.generation)
    && (forall r :: r in m.waiting ==> r.connection < |m.connections| && r.version <= m.connections[r.connection].request)
    && (forall i :: 0 <= i < |m.delivered| ==> Past(m, m.delivered[i]))
    && (forall i, j :: 0 <= i < j < |m.delivered| ==> Before(m.delivered[i], m.delivered[j]))
  }

  /** A delivered value is of this epoch or an earlier one; if of a connection still there, of a read it has
      started and that is settled. */
  ghost predicate Past(m: Machine, v: Value) {
    && v.epoch <= m.generation
    && forall c :: 0 <= c < |m.connections| && m.connections[c].epoch == v.epoch ==>
         v.version <= m.connections[c].request && Read(c, v.version) !in m.waiting
  }

  /** Steps that start no connection and no read and deliver nothing. */
  lemma QuietIsSound(m: Machine, t: Machine)
    requires Sound(m) && t.delivered == m.delivered && t.waiting <= m.waiting && m.generation <= t.generation
    requires |t.connections| == |m.connections|
    requires forall c :: 0 <= c < |m.connections| ==>
      t.connections[c].epoch == m.connections[c].epoch && t.connections[c].request == m.connections[c].request
    requires t.armed ==> !t.stopped && forall c :: 0 <= c < |m.connections| ==> m.connections[c].epoch < t.generation
    ensures Sound(t)
  {
    forall i | 0 <= i < |t.delivered| ensures Past(t, t.delivered[i]) { assert Past(m, m.delivered[i]); }
  }

  lemma TimerIsSound(m: Machine)
    requires Sound(m)
    ensures Sound(TimerFired(m))
  {
    var t := TimerFired(m);
    forall i | 0 <= i < |t.delivered| ensures Past(t, t.delivered[i]) { assert Past(m, m.delivered[i]); }
  }

  lemma RefreshIsSound(m: Machine, c: nat)
    requires Sound(m) && c < |m.connections|
    ensures Sound(Refresh(m, c))
  {
    var t := Refresh(m, c);
    forall i | 0 <= i < |t.delivered| ensures Past(t, t.delivered[i]) { assert Past(m, m.delivered[i]); }
  }

  lemma AnswerIsSound(m: Machine, r: Read)
    requires Sound(m)
    ensures Sound(Answered(m, r))
  {
    var t := Answered(m, r);
    forall i | 0 <= i < |t.delivered| ensures Past(t, t.delivered[i]) {
      if i < |m.delivered| { assert Past(m, m.delivered[i]); }
    }
    if |t.delivered| > |m.delivered| {
      forall i | 0 <= i < |m.delivered| ensures Before(m.delivered[i], Value(m.generation, r.version)) {
        assert Past(m, m.delivered[i]);
      }
    }
  }

  lemma StepIsSound(m: Machine, e: Event)
    requires Sound(m)
    ensures Sound(Step(m, e))
  {
    var t := Step(m, e);
    match e
    case Timer => TimerIsSound(m);
    case Connected(c) => QuietIsSound(m, t);
    case Notified(c) => if c < |m.connections| { RefreshIsSound(m, c); }
    case Subscribed(c) => if c < |m.connections| { RefreshIsSound(m, c); }
    case ConnectFails(c, fatal) => QuietIsSound(m, t);
    case Disconnected(c, fatal) => QuietIsSound(m, t);
    case ReadResolves(r) => AnswerIsSound(m, r);
    case ReadFails(r, fatal) => QuietIsSound(m, t);
    case Dispose => QuietIsSound(m, t);
  }

  lemma {:induction false} RunsAreSound(m: Machine, es: seq<Event>)
    requires Sound(m)
    ensures Sound(Steps(m, es))
    decreases es
  {
    if es != [] {
      hide Sound, Step;
      StepIsSound(m, es[0]);
      RunsAreSound(Step(m, es[0]), es[1..]);
    }
  }

  // ---- no stale observation ----

  /** Over every order of callbacks: what is delivered comes from ever newer reads of ever newer connections. */
  lemma DeliveriesIncrease(es: seq<Event>)
    ensures var d := Steps(START, es).delivered; forall i, j :: 0 <= i < j < |d| ==> Before(d[i], d[j])
  {
    RunsAreSound(START, es);
  }

  /** A step delivers only the newest-started read of the newest-started connection, and nothing once stopped. */
  lemma DeliversTheNewest(m: Machine, e: Event)
    requires Sound(m)
    ensures var t := Step(m, e);
      t.delivered == m.delivered
      || (&& e.ReadResolves? && !m.stopped
          && t.delivered == m.delivered + [Value(m.generation, e.read.version)]
          && (forall c :: 0 <= c < |m.connections| ==> m.connections[c].epoch <= m.connections[e.read.connection].epoch)
          && (forall r :: r in m.waiting && r.connection == e.read.connection ==> r.version <= e.read.version))
  {
  }

  lemma {:induction false} StoppedStaysSilent(m: Machine, es: seq<Event>)
    requires Sound(m) && m.stopped
    ensures Steps(m, es).stopped && Steps(m, es).delivered == m.delivered && !Steps(m, es).armed
    decreases es
  {
    if es != [] {
      StepIsSound(m, es[0]);
      StoppedStaysSilent(Step(m, es[0]), es[1..]);
    }
  }

  /** After dispose nothing is delivered and nothing is dialed, whatever still arrives. */
  lemma NothingAfterDispose(m: Machine, es: seq<Event>)
    requires Sound(m)
    ensures Steps(Step(m, Dispose), es).delivered == m.delivered && !Steps(Step(m, Dispose), es).armed
  {
    StepIsSound(m, Dispose);
    StoppedStaysSilent(Step(m, Dispose), es);
  }

  /** No connection is current and none will be dialed. */
  ghost predicate Dead(m: Machine) {
    !m.armed && (m.stopped || forall c :: 0 <= c < |m.connections| ==> m.connections[c].epoch < m.generation)
  }

  lemma DeadStep(m: Machine, e: Event)
    requires Sound(m) && Dead(m)
    ensures Dead(Step(m, e)) && Step(m, e).delivered == m.delivered && |Step(m, e).connections| == |m.connections|
  {
  }

  lemma {:induction false} DeadStaysDead(m: Machine, es: seq<Event>)
    requires Sound(m) && Dead(m)
    ensures Dead(Steps(m, es)) && Steps(m, es).delivered == m.delivered && |Steps(m, es).connections| == |m.connections|
    decreases es
  {
    if es != [] {
      hide Sound, Dead;
      StepIsSound(m, es[0]);
      DeadStep(m, es[0]);
      DeadStaysDead(Step(m, es[0]), es[1..]);
    }
  }

  /** A fatal error of the newest connection: while dialing or subscribing, on the socket, or in its newest read. */
  predicate FailsFatally(m: Machine, e: Event) {
    || (e.ConnectFails? && e.fatal && Current(m, e.c) && !m.connections[e.c].stage.Over?)
    || (e.Disconnected? && e.fatal && Current(m, e.c) && m.connections[e.c].listening)
    || (e.ReadFails? && e.fatal && e.read in m.waiting && Newest(m, e.read))
  }

  /** A fatal error never schedules a reconnect: from then on nothing is dialed and nothing delivered. */
  lemma FatalIsFinal(m: Machine, e: Event, es: seq<Event>)
    requires Sound(m) && FailsFatally(m, e)
    ensures var t := Steps(Step(m, e), es);
      t.delivered == m.delivered && !t.armed && |t.connections| == |m.connections|
  {
    StepIsSound(m, e);
    FatalIsDead(m, e);
    DeadStaysDead(Step(m, e), es);
  }

  lemma FatalIsDead(m: Machine, e: Event)
    requires Sound(m) && FailsFatally(m, e)
    ensures Dead(Step(m, e)) && Step(m, e).delivered == m.delivered && |Step(m, e).connections| == |m.connections|
  {
  }

  // ---- the observer stays alive ----

  /** The newest connection is the one that counts, and is dialing or attached. */
  predicate HoldsNewest(m: Machine) {
    m.connections != [] && m.connections[|m.connections| - 1].epoch == m.generation
    && !m.connections[|m.connections| - 1].stage.Over?
  }

  /** Not ended: a connection is being made or held, or the timer will make one. Attached ones listen. */
  ghost predicate Observing(m: Machine) {
    && !m.stopped && (m.armed || HoldsNewest(m))
    && forall c :: 0 <= c < |m.connections| ==> (m.connections[c].stage.Attached? <==> m.connections[c].listening)
  }

  /** The caller disposes, or the newest connection fails fatally. */
  predicate Ends(m: Machine, e: Event) {
    e == Dispose || FailsFatally(m, e)
  }

  ghost predicate NeverEnds(m: Machine, es: seq<Event>)
    decreases es
  {
    es == [] || (!Ends(m, es[0]) && NeverEnds(Step(m, es[0]), es[1..]))
  }

  lemma ConnectionsObserve(m: Machine, e: Event)
    requires Sound(m) && Observing(m) && (e.Timer? || e.Connected?)
    ensures Observing(Step(m, e)) && !Ends(m, e)
  {
    if m.armed { assert TimerFired(m).connections[|m.connections|] == Connection(m.generation + 1, 0, Dialing, false); }
  }

  lemma LossesObserve(m: Machine, e: Event)
    requires Sound(m) && Observing(m) && (e.ConnectFails? || e.Disconnected?)
    ensures Observing(Step(m, e)) <==> !Ends(m, e)
  {
  }

  lemma ReadsObserve(m: Machine, e: Event)
    requires Sound(m) && Observing(m) && (e.Notified? || e.Subscribed? || e.ReadResolves? || e.ReadFails? || e.Dispose?)
    ensures Observing(Step(m, e)) <==> !Ends(m, e)
  {
  }

  /** Exactly what ends an observation. */
  lemma ObservingExactly(m: Machine, e: Event)
    requires Sound(m) && Observing(m)
    ensures Observing(Step(m, e)) <==> !Ends(m, e)
  {
    hide Sound, Observing, Ends, Step;
    if e.Timer? || e.Connected? {
      ConnectionsObserve(m, e);
    } else if e.ConnectFails? || e.Disconnected? {
      LossesObserve(m, e);
    } else {
      ReadsObserve(m, e);
    }
  }

  /** Over every order of callbacks, until it is disposed or fails fatally the observer is connected to the newest
      epoch, connecting to it, or about to. */
  lemma {:induction false} StaysObserving(m: Machine, es: seq<Event>)
    requires Sound(m) && Observing(m) && NeverEnds(m, es)
    ensures Observing(Steps(m, es))
    decreases es
  {
    if es != [] {
      hide Sound, Observing, Ends, Step;
      StepIsSound(m, es[0]);
      ObservingExactly(m, es[0]);
      StaysObserving(Step(m, es[0]), es[1..]);
    }
  }

  lemma NewObserversObserve(es: seq<Event>)
    requires NeverEnds(START, es)
    ensures Observing(Steps(START, es))
  {
    StaysObserving(START, es);
  }

  /** An ordinary loss of the newest connection, or an ordinary failure to make it. */
  predicate LosesNewest(m: Machine, e: Event, c: nat) {
    && !m.stopped && c < |m.connections| && m.connections[c].epoch == m.generation
    && ((e == Disconnected(c, false) && m.connections[c].listening) || (e == ConnectFails(c, false) && !m.connections[c].stage.Over?))
  }

  /** It is dialed again: the timer is armed, and when it fires there is a connection newer than all before. */
  lemma LossIsRedialed(m: Machine, e: Event, c: nat)
    requires Sound(m) && LosesNewest(m, e, c)
    ensures var t := Step(m, e);
      && t.armed && !t.stopped && t.delivered == m.delivered
      && var u := Step(t, Timer);
      var n := |m.connections|;
      && !u.armed && !u.stopped && |u.connections| == n + 1
      && u.connections[n].stage.Dialing? && u.connections[n].epoch == u.generation
      && forall k :: 0 <= k < n ==> u.connections[k].epoch < u.connections[n].epoch
  {
  }

  /** A read of the newest connection that is its newest read when the answer comes is handed on. */
  lemma NewestIsDelivered(m: Machine, r: Read)
    requires r in m.waiting && !m.stopped && r.connection < |m.connections|
    requires m.connections[r.connection].epoch == m.generation && m.connections[r.connection].request == r.version
    ensures var t := Step(m, ReadResolves(r));
      t.delivered == m.delivered + [Value(m.generation, r.version)] && r !in t.waiting
  {
  }

  /** What makes a connection read: the subscription, or a notice that the Thread changed. */
  predicate Prompts(m: Machine, e: Event, c: nat) {
    && c < |m.connections|
    && ((e == Notified(c) && m.connections[c].listening)
        || (e == Subscribed(c) && !m.stopped && m.connections[c].epoch == m.generation && m.connections[c].stage.Attached?))
  }

  /** It starts a read that is newer than all of its connection before. */
  lemma PromptsAreRead(m: Machine, e: Event, c: nat)
    requires Sound(m) && Prompts(m, e, c)
    ensures var t := Step(m, e);
      var r := Read(c, m.connections[c].request + 1);
      && r in t.waiting && r !in m.waiting && t.connections[c].request == r.version
      && t.stopped == m.stopped && t.generation == m.generation && t.connections[c].epoch == m.connections[c].epoch
      && forall old_ :: old_ in m.waiting && old_.connection == c ==> old_.version < r.version
  {
  }

  /** A connection that is made in time listens. */
  lemma ConnectedListens(m: Machine, c: nat)
    requires c < |m.connections| && m.connections[c].stage.Dialing? && !m.stopped && m.connections[c].epoch == m.generation
    ensures var t := Step(m, Connected(c));
      t.connections[c].listening && t.connections[c].stage.Attached? && t.connections[c].epoch == t.generation && !t.stopped
  {
  }

  /** One that is made too late is closed and never listens. */
  lemma ConnectedTooLate(m: Machine, c: nat)
    requires c < |m.connections| && m.connections[c].stage.Dialing? && (m.stopped || m.connections[c].epoch != m.generation)
    ensures var t := Step(m, Connected(c));
      t.connections[c].stage.Over? && !t.connections[c].listening && t.delivered == m.delivered
  {
  }

  /** From a loss to a value: dial, connect, subscribe, read. */
  function Recovery(n: nat): seq<Event> {
    [Timer, Connected(n), Subscribed(n), ReadResolves(Read(n, 1))]
  }

  lemma LossIsRecovered(m: Machine, e: Event, c: nat)
    requires Sound(m) && LosesNewest(m, e, c)
    ensures var t := Steps(Step(m, e), Recovery(|m.connections|));
      t.delivered == m.delivered + [Value(t.generation, 1)] && !t.stopped
  {
    var n := |m.connections|;
    var es := Recovery(n);
    LossIsRedialed(m, e, c);
    var t := Step(m, e);
    var u := Step(t, Timer);
    assert u.connections[n] == Connection(u.generation, 0, Dialing, false) && u.delivered == m.delivered;
    hide Sound;
    ConnectedListens(u, n);
    var v := Step(u, Connected(n));
    assert v.delivered == m.delivered && v.connections[n].request == 0 && v.generation == u.generation;
    var w := Step(v, Subscribed(n));
    assert w == Refresh(v, n);
    assert w.delivered == m.delivered && Read(n, 1) in w.waiting && !w.stopped && w.generation == u.generation;
    NewestIsDelivered(w, Read(n, 1));
    hide Step;
    assert es[1..] == [Connected(n), Subscribed(n), ReadResolves(Read(n, 1))];
    assert es[1..][1..] == [Subscribed(n), ReadResolves(Read(n, 1))];
    assert es[1..][1..][1..] == [ReadResolves(Read(n, 1))];
    assert Steps(t, es) == Steps(u, es[1..]) == Steps(v, es[1..][1..]) == Steps(w, es[1..][1..][1..]);
    var x := Step(w, ReadResolves(Read(n, 1)));
    assert Steps(w, [ReadResolves(Read(n, 1))]) == Steps(x, []);
    assert x.generation == w.generation && x.stopped == w.stopped by { AnswerKeeps(w, Read(n, 1)); }
  }

  lemma AnswerKeeps(m: Machine, r: Read)
    ensures Step(m, ReadResolves(r)).generation == m.generation && Step(m, ReadResolves(r)).stopped == m.stopped
  {
  }

  lemma {:induction false} DeliveredStays(m: Machine, es: seq<Event>)
    ensures m.delivered <= Steps(m, es).delivered
    decreases es
  {
    if es != [] { DeliveredStays(Step(m, es[0]), es[1..]); }
  }

  lemma SoundIncreases(m: Machine)
    requires Sound(m)
    ensures forall i, j :: 0 <= i < j < |m.delivered| ==> Before(m.delivered[i], m.delivered[j])
  {
  }

  /** `subscribeThreadState`: its variables, changed by whichever callback comes next. */
  class ThreadSubscription {
    var stopped: bool
    var generation: nat
    var armed: bool
    var connections: seq<Connection>
    var waiting: set<Read>
    var delivered: seq<Value>

    ghost function View(): Machine
      reads this
    {
      Machine(stopped, generation, armed, connections, waiting, delivered)
    }

    constructor ()
      ensures View() == START
    {
      stopped, generation, armed := false, 1, false;
      connections, waiting, delivered := [Connection(1, 0, Dialing, false)], {}, [];
    }

    /** connect, when the timer fires */
    method Dial()
      modifies this
      ensures View() == TimerFired(old(View()))
    {
      if !armed { return; }
      armed := false;
      generation := generation + 1;
      connections := connections + [Connection(generation, 0, Dialing, false)];
    }

    method OnConnected(c: nat)
      requires c < |connections| && connections[c].stage.Dialing?
      modifies this
      ensures View() == Attach(old(View()), c)
    {
      if stopped || connections[c].epoch != generation {
        connections := connections[c := connections[c].(listening := false, stage := Over)];
      } else {
        connections := connections[c := connections[c].(stage := Attached, listening := true)];
      }
    }

    method StartRead(c: nat) returns (read: Read)
      requires c < |connections|
      modifies this
      ensures View() == Refresh(old(View()), c)
      ensures read == Read(c, connections[c].request)
    {
      connections := connections[c := connections[c].(request := connections[c].request + 1)];
      read := Read(c, connections[c].request);
      waiting := waiting + {read};
    }

    /** The read's value, handed on or dropped. */
    method OnRead(read: Read) returns (shown: bool)
      requires read in waiting && read.connection < |connections|
      modifies this
      ensures View() == Answered(old(View()), read)
      ensures shown == Newest(old(View()), read)
    {
      waiting := waiting - {read};
      var current := connections[read.connection];
      shown := !stopped && current.epoch == generation && read.version == current.request;
      if shown { delivered := delivered + [Value(generation, read.version)]; }
    }

    /** The newest connection breaks: give up for good, or dial again later. */
    method OnDisconnect(c: nat, fatal: bool)
      requires c < |connections| && connections[c].listening
      modifies this
      ensures View() == Lost(old(View()), c, fatal)
    {
      if stopped || connections[c].epoch != generation { return; }
      generation := generation + 1;
      connections := connections[c := connections[c].(listening := false, stage := Over)];
      if fatal {
        stopped := true;
      } else {
        armed := true;
      }
    }

    method Close()
      modifies this
      ensures View() == Step(old(View()), Dispose)
    {
      stopped := true;
      generation := generation + 1;
      armed := false;
    }

    /** connect throws: on the newest connection that ends the epoch, and dials again unless fatal. */
    method OnConnectFailed(c: nat, fatal: bool)
      modifies this
      ensures View() == Failed(old(View()), c, fatal)
    {
      if c >= |connections| || stopped || connections[c].epoch != generation || connections[c].stage.Over? { return; }
      generation := generation + 1;
      connections := connections[c := connections[c].(listening := false, stage := Over)];
      if !fatal { armed := true; }
    }

    /** A read fails: only a fatal failure of the newest read of the newest connection ends the observation. */
    method OnReadFailed(read: Read, fatal: bool)
      requires read in waiting && read.connection < |connections|
      modifies this
      ensures View() == Unread(old(View()), read, fatal)
    {
      waiting := waiting - {read};
      var c := connections[read.connection];
      if stopped || c.epoch != generation || read.version != c.request || !fatal { return; }
      connections := connections[read.connection := c.(listening := false, stage := Over)];
      generation := generation + 1;
      stopped, armed := true, false;
    }

    method Handle(e: Event)
      requires Sound(View())
      modifies this
      ensures View() == Step(old(View()), e)
    {
      match e
      case Timer => Dial();
      case Connected(c) => if c < |connections| && connections[c].stage.Dialing? { OnConnected(c); }
      case Notified(c) => if c < |connections| && connections[c].listening { var _ := StartRead(c); }
      case Subscribed(c) =>
        if c < |connections| && !stopped && connections[c].epoch == generation && connections[c].stage.Attached? {
          var _ := StartRead(c);
        }
      case ConnectFails(c, fatal) => OnConnectFailed(c, fatal);
      case Disconnected(c, fatal) => if c < |connections| && connections[c].listening { OnDisconnect(c, fatal); }
      case ReadResolves(read) => if read in waiting { var _ := OnRead(read); }
      case ReadFails(read, fatal) => if read in waiting { OnReadFailed(read, fatal); }
      case Dispose => Close();
    }

    /** Whatever callbacks come, in whatever order: what was delivered stays, what is delivered comes from ever
        newer reads of ever newer connections; until the observation ends there is a connection, one being made
        or a timer to make one, and afterwards nothing is delivered or dialed. */
    method Run(es: seq<Event>)
      requires Sound(View())
      modifies this
      ensures View() == Steps(old(View()), es) && Sound(View())
      ensures old(delivered) <= delivered && forall i, j :: 0 <= i < j < |delivered| ==> Before(delivered[i], delivered[j])
      ensures old(stopped) ==> stopped && delivered == old(delivered) && !armed
      ensures Observing(old(View())) && NeverEnds(old(View()), es) ==> Observing(View())
    {
      hide Step;
      ghost var start := View();
      DeliveredStays(start, es);
      if stopped { StoppedStaysSilent(start, es); }
      if Observing(start) && NeverEnds(start, es) { StaysObserving(start, es); }
      hide Sound, Observing, NeverEnds;
      RunsAreSound(start, es);
      var i := 0;
      while i < |es|
        invariant 0 <= i <= |es|
        invariant Sound(View()) && Steps(start, es) == Steps(View(), es[i..])
      {
        assert es[i..][0] == es[i] && es[i..][1..] == es[i + 1..];
        StepIsSound(View(), es[i]);
        Handle(es[i]);
        i := i + 1;
      }
      assert es[i..] == [];
      SoundIncreases(View());
    }
  }
}
