/**
 * The latest-state publisher (packages/adapters/src/latest-state-publisher.ts): one pending refresh, shared
 * by every caller that asks while a slow write is under way. Steps fall at the points where the loop awaits;
 * `clock` counts them, so that earlier and later can be said.
 */
module Publisher {
  import opened Common

  /** A running loop: queued as a microtask, or awaiting the write it started then. */
  datatype Loop = Waiting | Writing(since: nat)

  datatype Write = Write(since: nat, until: nat)

  /** A publish call and the promise it was given. */
  datatype Call = Call(at: nat, promise: nat)

  /** `pending` and `dirty` are the program's; the rest is the suspended loops and history. A settled promise
      has resolved if true and rejected if false. */
  datatype Machine = Machine(
    pending: Option<nat>, dirty: bool, loops: seq<Loop>,
    clock: nat, promises: nat, calls: seq<Call>, writes: seq<Write>, settled: map<nat, bool>)

  const START := Machine(None, false, [], 0, 0, [], [], map[])

  datatype Event = Publish | Turn(loop: nat) | WriteDone(loop: nat) | WriteFails(loop: nat)

  function Without(loops: seq<Loop>, i: nat): seq<Loop>
    requires i < |loops|
  {
    loops[..i] + loops[i + 1..]
  }

  function Published(m: Machine): Machine {
    var now := m.clock + 1;
    if m.pending.Some? then m.(dirty := true, clock := now, calls := m.calls + [Call(now, m.pending.value)])
    else
      m.(dirty := true, clock := now, calls := m.calls + [Call(now, m.promises)],
         pending := Some(m.promises), promises := m.promises + 1, loops := m.loops + [Waiting])
  }

  /** `while (dirty)`: start the next write, or finish and resolve. */
  function Looped(m: Machine, i: nat): Machine
    requires i < |m.loops|
  {
    if m.dirty then m.(dirty := false, loops := m.loops[i := Writing(m.clock)])
    else Finished(m, i, true)
  }

  function Finished(m: Machine, i: nat, resolved: bool): Machine
    requires i < |m.loops|
  {
    m.(loops := Without(m.loops, i), pending := None,
       settled := if m.pending.Some? then m.settled[m.pending.value := resolved] else m.settled)
  }

  function Step(m: Machine, e: Event): Machine {
    match e
    case Publish => Published(m)
    case Turn(i) => if i < |m.loops| && m.loops[i].Waiting? then Looped(m.(clock := m.clock + 1), i) else m
    case WriteDone(i) =>
      if i < |m.loops| && m.loops[i].Writing? then
        Looped(m.(clock := m.clock + 1, writes := m.writes + [Write(m.loops[i].since, m.clock + 1)]), i)
      else m
    case WriteFails(i) =>
      if i < |m.loops| && m.loops[i].Writing? then Finished(m.(clock := m.clock + 1), i, false) else m
  }

  function Steps(m: Machine, es: seq<Event>): Machine
    decreases es
  {
    if es == [] then m else Steps(Step(m, es[0]), es[1..])
  }

  /** A write that began after this moment has finished. */
  predicate Covered(writes: seq<Write>, at: nat) {
    exists i :: 0 <= i < |writes| && at < writes[i].since <= writes[i].until
  }

  ghost predicate CallOk(m: Machine, c: Call) {
    && c.at <= m.clock && c.promise < m.promises
    && (if m.pending == Some(c.promise)
        then c.promise !in m.settled
             && (m.dirty || Covered(m.writes, c.at) || (m.loops != [] && m.loops[0].Writing? && c.at < m.loops[0].since))
        else c.promise in m.settled && (m.settled[c.promise] ==> Covered(m.writes, c.at)))
  }

  ghost predicate Sound(m: Machine) {
    && |m.loops| <= 1
    && (m.pending.Some? <==> |m.loops| == 1)
    && (m.pending.Some? ==> m.pending.value < m.promises && m.pending.value !in m.settled)
    && (m.loops == [Waiting] ==> m.dirty)
    && (|m.loops| == 1 && m.loops[0].Writing? ==> m.loops[0].since <= m.clock)
    && (forall p :: p in m.settled ==> p < m.promises)
    && (forall k :: 0 <= k < |m.calls| ==> CallOk(m, m.calls[k]))
  }

  lemma CoveredMore(writes: seq<Write>, w: Write, at: nat)
    ensures Covered(writes, at) ==> Covered(writes + [w], at)
    ensures at < w.since <= w.until ==> Covered(writes + [w], at)
  {
    if Covered(writes, at) {
      var i :| 0 <= i < |writes| && at < writes[i].since <= writes[i].until;
      assert (writes + [w])[i] == writes[i];
    }
    assert (writes + [w])[|writes|] == w;
  }

  lemma StepIsSound(m: Machine, e: Event)
    requires Sound(m)
    ensures Sound(Step(m, e))
  {
    var t := Step(m, e);
    if t != m {
      forall k | 0 <= k < |t.calls| ensures CallOk(t, t.calls[k]) {
        if k < |m.calls| {
          assert CallOk(m, m.calls[k]);
          if e.WriteDone? { CoveredMore(m.writes, Write(m.loops[e.loop].since, m.clock + 1), m.calls[k].at); }
        }
      }
    }
  }

  lemma {:induction false} RunsAreSound(m: Machine, es: seq<Event>)
    requires Sound(m)
    ensures Sound(Steps(m, es))
    decreases es
  {
    if es != [] {
      hide Sound, Step;
      StepIsSound(m, es[0]);
      RunsAreSound(Step(m, es[0]), es[1..]);
    }
  }

  /** Over every interleaving of calls and slow writes: one write at a time, and no refresh is lost. A call's
      promise resolves only after a write that began after the call has finished; otherwise it is still
      pending, or a write failed and it rejected. */
  lemma NoLostRefresh(es: seq<Event>)
    ensures var m := Steps(START, es);
      && |m.loops| <= 1
      && forall k :: 0 <= k < |m.calls| ==>
           var c := m.calls[k];
           (m.pending == Some(c.promise) && c.promise !in m.settled)
           || (c.promise in m.settled && (m.settled[c.promise] ==> Covered(m.writes, c.at)))
  {
    RunsAreSound(START, es);
    var m := Steps(START, es);
    forall k | 0 <= k < |m.calls|
      ensures var c := m.calls[k];
        (m.pending == Some(c.promise) && c.promise !in m.settled)
        || (c.promise in m.settled && (m.settled[c.promise] ==> Covered(m.writes, c.at)))
    {
      assert CallOk(m, m.calls[k]);
    }
  }

  /** A caller never waits for more than the write under way and one more: with no further calls and no
      failure, two finished writes settle everything. */
  lemma TwoWritesSuffice(m: Machine)
    requires Sound(m) && m.loops != [] && m.loops[0].Writing?
    ensures var t := Steps(m, [WriteDone(0), WriteDone(0)]); t.pending == None && t.loops == [] && !t.dirty
  {
    var a := Step(m, WriteDone(0));
    assert [WriteDone(0), WriteDone(0)][1..] == [WriteDone(0)] && [WriteDone(0)][1..] == [];
    assert Steps(m, [WriteDone(0), WriteDone(0)]) == Steps(a, [WriteDone(0)]);
    assert Steps(a, [WriteDone(0)]) == Step(a, WriteDone(0));
  }

  /** What is still to come of the promise callers wait for: the loop's first turn if it has not had it, the
      write under way, and one more. */
  function Remaining(m: Machine): seq<Event>
    requires m.loops != []
  {
    if m.loops[0].Waiting? then [Turn(0), WriteDone(0)] else if m.dirty then [WriteDone(0), WriteDone(0)] else [WriteDone(0)]
  }

  /** From any state with a promise pending: with no further calls and no failure it resolves, after at most two
      writes, the last of which began with everything asked for. */
  lemma PendingResolves(m: Machine)
    requires Sound(m) && m.pending.Some?
    ensures var t := Steps(m, Remaining(m));
      && t.pending == None && t.loops == [] && !t.dirty
      && m.pending.value in t.settled && t.settled[m.pending.value]
      && |m.writes| < |t.writes| <= |m.writes| + 2
  {
    var es := Remaining(m);
    var a := Step(m, es[0]);
    assert es[1..] == [] || es[1..] == [WriteDone(0)];
    if |es| > 1 {
      assert [WriteDone(0)][1..] == [];
      assert Steps(m, es) == Steps(a, es[1..]) == Steps(Step(a, WriteDone(0)), []);
    }
  }

  /** A failed write rejects the promise, and the next call starts over. */
  lemma FailureRejects(m: Machine)
    requires Sound(m) && m.loops != [] && m.loops[0].Writing?
    ensures var t := Step(m, WriteFails(0));
      && t.pending == None && t.loops == [] && t.writes == m.writes
      && m.pending.value in t.settled && !t.settled[m.pending.value]
      && var u := Step(t, Publish);
      u.pending == Some(m.promises) && u.loops == [Waiting] && u.dirty
  {
  }

  /** `createLatestStatePublisher`: its two variables, and the loops suspended over them. */
  class LatestStatePublisher {
    var pending: Option<nat>
    var dirty: bool
    var loops: seq<Loop>

    // history
    var clock: nat
    var promises: nat
    ghost var calls: seq<Call>
    ghost var writes: seq<Write>
    ghost var settled: map<nat, bool>

    ghost function View(): Machine
      reads this
    {
      Machine(pending, dirty, loops, clock, promises, calls, writes, settled)
    }

    constructor ()
      ensures View() == START
    {
      pending, dirty, loops, promises := None, false, [], 0;
      clock, calls, writes, settled := 0, [], [], map[];
    }

    /** The function it returns. */
    method Publish() returns (promise: nat)
      modifies this
      ensures View() == Published(old(View()))
      ensures pending == Some(promise)
    {
      dirty := true;
      clock := clock + 1;
      if pending.None? {
        pending := Some(promises);
        promises := promises + 1;
        loops := loops + [Waiting];
      }
      promise := pending.value;
      calls := calls + [Call(clock, promise)];
    }

    /** The loop resumes, from its microtask or from a write that finished. */
    method Resume(i: nat)
      requires i < |loops|
      modifies this
      ensures View() == Step(old(View()), if old(loops[i]).Waiting? then Turn(i) else WriteDone(i))
    {
      clock := clock + 1;
      if loops[i].Writing? { writes := writes + [Write(loops[i].since, clock)]; }
      if dirty {
        dirty := false;
        loops := loops[i := Writing(clock)];
      } else {
        Settle(i, true);
      }
    }

    /** `finally`, and the promise's fate */
    method Settle(i: nat, resolved: bool)
      requires i < |loops|
      modifies this
      ensures View() == Finished(old(View()), i, resolved)
    {
      if pending.Some? { settled := settled[pending.value := resolved]; }
      pending := None;
      loops := loops[..i] + loops[i + 1..];
    }

    /** The write throws: the loop ends and its promise rejects. */
    method Reject(i: nat)
      requires i < |loops| && loops[i].Writing?
      modifies this
      ensures View() == Step(old(View()), WriteFails(i))
    {
      clock := clock + 1;
      Settle(i, false);
    }

    method Handle(e: Event)
      modifies this
      ensures View() == Step(old(View()), e)
    {
      match e
      case Publish => var _ := Publish();
      case Turn(i) => if i < |loops| && loops[i].Waiting? { Resume(i); }
      case WriteDone(i) => if i < |loops| && loops[i].Writing? { Resume(i); }
      case WriteFails(i) => if i < |loops| && loops[i].Writing? { Reject(i); }
    }

    /** From a new publisher, over any interleaving of calls and slow writes: one write at a time, and a call's
        promise resolves only after a write begun after the call. */
    method Run(es: seq<Event>)
      requires View() == START
      modifies this
      ensures View() == Steps(START, es)
      ensures |loops| <= 1
      ensures forall k :: 0 <= k < |calls| && calls[k].promise in settled && settled[calls[k].promise] ==> Covered(writes, calls[k].at)
      ensures forall k :: 0 <= k < |calls| && calls[k].promise !in settled ==> pending == Some(calls[k].promise)
    {
      hide Step, Covered;
      NoLostRefresh(es);
      var i := 0;
      while i < |es|
        invariant 0 <= i <= |es|
        invariant Steps(START, es) == Steps(View(), es[i..])
      {
        assert es[i..][0] == es[i] && es[i..][1..] == es[i + 1..];
        Handle(es[i]);
        i := i + 1;
      }
      assert es[i..] == [];
    }
  }
}
