/**
 * Hot-reloading a diff review (packages/daemon/src/api.ts, `sessionRefreshDiff` and what may happen while a
 * capture is under way): generations keep an older capture from overwriting a newer one, but not from
 * overwriting a revision the agent submitted meanwhile.
 */
module DiffCapture {
  import opened Common

  /** What the review shows, and (history) where that came from: a capture, begun after so many revisions, or
      the agent. */
  datatype Source = Captured(generation: nat, started: nat) | Submitted(revision: nat)

  datatype Session = Session(pending: bool, patch: string, source: Source)

  /** A capture under way; `started` (history) is how many revisions the agent had submitted by then. */
  datatype Capture = Capture(generation: nat, started: nat)

  /** One review: `generation` is its entry in diffRefreshGenerations, 0 if there is none. `installed` is the
      generations of the captures that were written, in order; `revisions` counts the agent's. */
  datatype Machine = Machine(
    session: Option<Session>, generation: nat, captures: set<Capture>, installed: seq<nat>, revisions: nat)

  function Opened(patch: string): Machine {
    Machine(Some(Session(true, patch, Submitted(0))), 0, {}, [], 0)
  }

  datatype Event =
    | Refresh
    | Completes(capture: Capture, patch: string)
    | CaptureFails(capture: Capture)
    | Resolve
    | Submit(patch: string)
    | Delete

  /** The checks after the await: the newest capture, of a review that is still there and open, that differs. */
  predicate Installs(m: Machine, c: Capture, patch: string) {
    && c in m.captures && c.generation == m.generation
    && m.session.Some? && m.session.value.pending && patch != m.session.value.patch
  }

  function Completed(m: Machine, c: Capture, patch: string): Machine {
    if c !in m.captures then m
    else
      var t := m.(captures := m.captures - {c});
      if Installs(m, c, patch)
      then t.(session := Some(m.session.value.(patch := patch, source := Captured(c.generation, c.started))), installed := m.installed + [c.generation])
      else t
  }

  function Step(m: Machine, e: Event): Machine {
    match e
    case Refresh =>
      if m.session.Some? && m.session.value.pending
      then m.(generation := m.generation + 1, captures := m.captures + {Capture(m.generation + 1, m.revisions)})
      else m
    case Completes(c, patch) => Completed(m, c, patch)
    case CaptureFails(c) => m.(captures := m.captures - {c})
    case Resolve => if m.session.Some? then m.(session := Some(m.session.value.(pending := false))) else m
    case Submit(patch) =>
      if m.session.Some?
      then m.(session := Some(Session(true, patch, Submitted(m.revisions + 1))), revisions := m.revisions + 1)
      else m
    case Delete => m.(session := None, generation := 0)
  }

  function Steps(m: Machine, es: seq<Event>): Machine
    decreases es
  {
    if es == [] then m else Steps(Step(m, es[0]), es[1..])
  }

  ghost predicate Sound(m: Machine) {
    && (m.session.Some? ==>
          && (forall c :: c in m.captures ==> c.generation <= m.generation)
          && (forall i :: 0 <= i < |m.installed| ==> m.installed[i] <= m.generation && NotUnderWay(m, m.installed[i])))
    && (forall c :: c in m.captures ==> c.started <= m.revisions)
    && (forall c, d :: c in m.captures && d in m.captures && c.generation < d.generation ==> c.started <= d.started)
    && (forall c, d :: c in m.captures && d in m.captures && c.generation == d.generation ==> c == d)
    && (forall i, j :: 0 <= i < j < |m.installed| ==> m.installed[i] < m.installed[j])
  }

  predicate NotUnderWay(m: Machine, generation: nat) {
    forall c :: c in m.captures ==> c.generation != generation
  }

  lemma StepIsSound(m: Machine, e: Event)
    requires Sound(m)
    ensures Sound(Step(m, e))
  {
    var t := Step(m, e);
    forall i | 0 <= i < |t.installed| && t.session.Some? ensures NotUnderWay(t, t.installed[i]) {
      if i < |m.installed| { assert NotUnderWay(m, m.installed[i]); }
    }
    if |t.installed| > |m.installed| {
      forall i | 0 <= i < |m.installed| ensures m.installed[i] < e.capture.generation {
        assert NotUnderWay(m, m.installed[i]);
      }
    }
  }

  lemma {:induction false} RunsAreSound(m: Machine, es: seq<Event>)
    requires Sound(m)
    ensures Sound(Steps(m, es))
    decreases es
  {
    if es != [] {
      hide Sound, Step;
      StepIsSound(m, es[0]);
      RunsAreSound(Step(m, es[0]), es[1..]);
    }
  }

  /** Over every interleaving of overlapping captures, resolves, revisions and a deletion, the captures written
      have strictly increasing generations, so one started earlier never overwrites one started later. */
  lemma InstalledInOrder(patch: string, es: seq<Event>)
    ensures var i := Steps(Opened(patch), es).installed; forall a, b :: 0 <= a < b < |i| ==> i[a] < i[b]
  {
    RunsAreSound(Opened(patch), es);
  }

  /** A capture changes nothing about a review that is resolved or gone, and a deleted one never returns. */
  lemma {:induction false} ClosedStaysClosed(m: Machine, es: seq<Event>)
    ensures m.session.None? ==> Steps(m, es).session.None?
    ensures m.session.Some? && !m.session.value.pending && (forall i :: 0 <= i < |es| ==> !es[i].Submit? && !es[i].Delete?) ==>
      Steps(m, es).session == m.session
    decreases es
  {
    if es != [] { ClosedStaysClosed(Step(m, es[0]), es[1..]); }
  }

  // ---- revisions submitted meanwhile ----

  /** The capture began before the revision the review shows was submitted. */
  predicate Outdated(m: Machine, c: Capture) {
    m.session.Some? && m.session.value.source.Submitted? && c.started < m.session.value.source.revision
  }

  /** Exactly when a revision is overwritten by a capture that is older than it: the capture is the newest one,
      the review is open, and the patches differ. Submitting a revision does not start a new generation. */
  lemma RevisionsAreOverwrittenExactly(m: Machine, c: Capture, patch: string)
    requires c in m.captures && Outdated(m, c)
    ensures Step(m, Completes(c, patch)).session != m.session
      <==> c.generation == m.generation && m.session.value.pending && patch != m.session.value.patch
  {
  }

  /** A refresh after the revision protects it: older captures are discarded from then on. */
  lemma RefreshProtects(m: Machine, c: Capture, patch: string)
    requires Sound(m) && c in m.captures && m.session.Some? && m.session.value.pending
    ensures var t := Step(Step(m, Refresh), Completes(c, patch)); t.session == m.session
  {
  }

  /** How many of the agent's revisions what the review shows has seen. */
  function Freshness(s: Session): nat {
    match s.source
    case Submitted(revision) => revision
    case Captured(_, started) => started
  }

  /** What is shown has seen no more revisions than there are. */
  ghost predicate FreshOk(m: Machine) {
    Sound(m) && (m.session.Some? ==> Freshness(m.session.value) <= m.revisions)
  }

  /** The newest capture, if it is still under way, began no earlier than what the review shows. */
  ghost predicate Unthreatened(m: Machine) {
    m.session.Some? ==> forall c :: c in m.captures && c.generation == m.generation ==> Freshness(m.session.value) <= c.started
  }

  /** A step makes the review older exactly when it installs a capture that began before what is shown. */
  lemma OlderExactly(m: Machine, e: Event)
    requires FreshOk(m) && m.session.Some? && Step(m, e).session.Some?
    ensures FreshOk(Step(m, e))
    ensures Freshness(Step(m, e).session.value) < Freshness(m.session.value) <==>
      e.Completes? && Installs(m, e.capture, e.patch) && e.capture.started < Freshness(m.session.value)
  {
    StepIsSound(m, e);
  }

  /** A revision is submitted while the newest capture is under way. */
  predicate SubmitsOver(m: Machine, e: Event) {
    e.Submit? && m.session.Some? && exists c :: c in m.captures && c.generation == m.generation
  }

  ghost predicate NeverSubmitsOver(m: Machine, es: seq<Event>)
    decreases es
  {
    es == [] || (!SubmitsOver(m, es[0]) && NeverSubmitsOver(Step(m, es[0]), es[1..]))
  }

  lemma UnthreatenedStep(m: Machine, e: Event)
    requires FreshOk(m) && Unthreatened(m)
    ensures m.session.None? ==> Step(m, e).session.None?
    ensures FreshOk(Step(m, e))
    ensures Unthreatened(Step(m, e)) <==> !SubmitsOver(m, e)
    ensures m.session.Some? && Step(m, e).session.Some? ==> Freshness(m.session.value) <= Freshness(Step(m, e).session.value)
  {
    StepIsSound(m, e);
    if SubmitsOver(m, e) {
      var c :| c in m.captures && c.generation == m.generation;
      assert c in Step(m, e).captures && c.started <= m.revisions;
    }
  }

  /** Over any run in which no revision is submitted over a capture that is still the newest, the review never
      goes back: a revision is only ever replaced by something that has seen it. */
  lemma {:induction false} RevisionsSurvive(m: Machine, es: seq<Event>)
    requires FreshOk(m) && Unthreatened(m) && NeverSubmitsOver(m, es)
    ensures var t := Steps(m, es);
      && FreshOk(t) && (m.session.None? ==> t.session.None?)
      && (m.session.Some? && t.session.Some? ==> Freshness(m.session.value) <= Freshness(t.session.value))
    decreases es
  {
    if es != [] {
      hide FreshOk, Unthreatened, Step, SubmitsOver;
      UnthreatenedStep(m, es[0]);
      RevisionsSurvive(Step(m, es[0]), es[1..]);
    }
  }

  /** And over any run at all a capture that a refresh has overtaken is never installed any more. */
  lemma {:induction false} OvertakenIsDiscarded(m: Machine, es: seq<Event>, c: Capture)
    requires m.session.Some? ==> c.generation < m.generation
    ensures forall k :: 0 <= k < |es| && es[k].Completes? && es[k].capture == c ==>
      Steps(m, es[..k + 1]).session == Steps(m, es[..k]).session
    decreases es
  {
    if es != [] {
      OvertakenIsDiscarded(Step(m, es[0]), es[1..], c);
      forall k | 0 <= k < |es| && es[k].Completes? && es[k].capture == c
        ensures Steps(m, es[..k + 1]).session == Steps(m, es[..k]).session
      {
        hide Step;
        assert es[..0] == [] && es[..k + 1][0] == es[0] && es[..k + 1][1..] == es[1..][..k];
        if k == 0 {
          OvertakenStep(m, es[0]);
        } else {
          assert es[..k][0] == es[0] && es[..k][1..] == es[1..][..k - 1];
          assert es[1..][k - 1] == es[k];
        }
      }
    }
  }

  lemma OvertakenStep(m: Machine, e: Event)
    requires e.Completes? && (m.session.Some? ==> e.capture.generation < m.generation)
    ensures Step(m, e).session == m.session
  {
  }

  // ---- what a refresh and a deletion do ----

  /** A refresh begins one capture, newer than all before, if the review is open; of a resolved or deleted one it
      begins nothing. Captures that are under way stay so. */
  lemma RefreshBeginsExactly(m: Machine)
    requires Sound(m)
    ensures var t := Step(m, Refresh);
      if m.session.Some? && m.session.value.pending then
        && t.session == m.session && t.installed == m.installed && t.generation > m.generation
        && (exists c :: c !in m.captures && t.captures == m.captures + {c} && c.generation == t.generation && c.started == m.revisions)
        && (forall d :: d in m.captures ==> d.generation < t.generation)
      else t == m
  {
    if m.session.Some? && m.session.value.pending {
      var c := Capture(m.generation + 1, m.revisions);
      assert c !in m.captures && Step(m, Refresh).captures == m.captures + {c};
    }
  }

  /** The newest capture of an open review is installed when it comes back, if it saw something else. */
  lemma NewestIsInstalled(m: Machine, c: Capture, patch: string)
    requires c in m.captures && c.generation == m.generation && m.session.Some? && m.session.value.pending
    ensures var t := Step(m, Completes(c, patch));
      && c !in t.captures && t.session.Some? && t.session.value.patch == patch && t.session.value.pending
      && (patch != m.session.value.patch ==> t.installed == m.installed + [c.generation])
      && (patch == m.session.value.patch ==> t.session == m.session && t.installed == m.installed)
  {
  }

  /** A capture that failed never comes back. */
  lemma FailedIsDiscarded(m: Machine, c: Capture, patch: string)
    ensures var t := Step(m, CaptureFails(c));
      t.session == m.session && t.installed == m.installed && c !in t.captures && Step(t, Completes(c, patch)) == t
  {
  }

  /** A deleted review is gone for good, and its generation with it. */
  lemma DeletedIsGone(m: Machine, es: seq<Event>)
    ensures Step(m, Delete).generation == 0
    ensures Steps(Step(m, Delete), es).session.None? && Steps(Step(m, Delete), es).installed == m.installed
  {
    ClosedStaysClosed(Step(m, Delete), es);
    NothingInstalled(Step(m, Delete), es);
  }

  lemma {:induction false} NothingInstalled(m: Machine, es: seq<Event>)
    requires m.session.None?
    ensures Steps(m, es).installed == m.installed
    decreases es
  {
    if es != [] { NothingInstalled(Step(m, es[0]), es[1..]); }
  }

  /** It happens: refresh, resolve, revise, and only then the capture comes back with the old patch. */
  lemma StaleCaptureWins(old_: string, captured: string, revised: string)
    requires captured != revised
    ensures var m := Steps(Opened(old_), [Refresh, Resolve, Submit(revised), Completes(Capture(1, 0), captured)]);
      m.session == Some(Session(true, captured, Captured(1, 0))) && m.revisions == 1
  {
    var a := Step(Opened(old_), Refresh);
    var b := Step(a, Resolve);
    var c := Step(b, Submit(revised));
    var d := Step(c, Completes(Capture(1, 0), captured));
    var es := [Refresh, Resolve, Submit(revised), Completes(Capture(1, 0), captured)];
    assert es[1..] == [Resolve, Submit(revised), Completes(Capture(1, 0), captured)];
    assert es[1..][1..] == [Submit(revised), Completes(Capture(1, 0), captured)];
    assert es[1..][1..][1..] == [Completes(Capture(1, 0), captured)];
    assert Steps(d, []) == d;
    assert Steps(c, es[1..][1..][1..]) == d;
    assert Steps(b, es[1..][1..]) == d;
    assert Steps(a, es[1..]) == d;
  }

  /** The part of `DaemonCore` that keeps one diff review up to date. */
  class DiffReview {
    var session: Option<Session>
    var generation: nat

    /** The suspended calls. */
    var captures: set<Capture>

    // history
    ghost var installed: seq<nat>
    var revisions: nat

    ghost function View(): Machine
      reads this
    {
      Machine(session, generation, captures, installed, revisions)
    }

    constructor (patch: string)
      ensures View() == Opened(patch)
    {
      session, generation, revisions := Some(Session(true, patch, Submitted(0))), 0, 0;
      captures, installed := {}, [];
    }

    /** sessionRefreshDiff, up to its await */
    method BeginRefresh() returns (capture: Option<Capture>)
      modifies this
      ensures View() == Step(old(View()), Refresh)
      ensures capture.Some? ==> capture.value == Capture(generation, revisions) && capture.value in captures
    {
      if session.None? || !session.value.pending { return None; }
      generation := generation + 1;
      capture := Some(Capture(generation, revisions));
      captures := captures + {capture.value};
    }

    /** The rest of it: install the capture, or discard it. */
    method EndRefresh(capture: Capture, patch: string) returns (changed: bool)
      requires capture in captures
      modifies this
      ensures View() == Completed(old(View()), capture, patch)
      ensures changed == Installs(old(View()), capture, patch)
    {
      captures := captures - {capture};
      if generation != capture.generation { return false; }
      if session.None? || !session.value.pending { return false; }
      if patch == session.value.patch { return false; }
      session := Some(session.value.(patch := patch, source := Captured(capture.generation, capture.started)));
      installed := installed + [capture.generation];
      changed := true;
    }

    /** sessionSubmitRevision leaves the generation alone. */
    method SubmitRevision(patch: string)
      requires session.Some?
      modifies this
      ensures View() == Step(old(View()), Submit(patch))
    {
      revisions := revisions + 1;
      session := Some(Session(true, patch, Submitted(revisions)));
    }

    method DeleteSession()
      modifies this
      ensures View() == Step(old(View()), Delete)
    {
      session := None;
      generation := 0;
    }

    method ResolveSession()
      modifies this
      ensures View() == Step(old(View()), Resolve)
    {
      if session.Some? { session := Some(session.value.(pending := false)); }
    }

    method Forget(capture: Capture)
      modifies this
      ensures View() == Step(old(View()), CaptureFails(capture))
    {
      captures := captures - {capture};
    }

    method Handle(e: Event)
      modifies this
      ensures View() == Step(old(View()), e)
    {
      match e
      case Refresh => var _ := BeginRefresh();
      case Completes(c, patch) => if c in captures { var _ := EndRefresh(c, patch); }
      case CaptureFails(c) => Forget(c);
      case Resolve => ResolveSession();
      case Submit(patch) => if session.Some? { SubmitRevision(patch); }
      case Delete => DeleteSession();
    }

    /** Overlapping captures in any interleaving with resolves, revisions and deletion: captures are installed in
        the order they began in, a deleted review stays gone, and without a revision submitted over the newest
        capture what is shown never goes back to before a revision it had. */
    method Run(es: seq<Event>)
      requires Sound(View())
      modifies this
      ensures View() == Steps(old(View()), es) && Sound(View())
      ensures forall a, b :: 0 <= a < b < |installed| ==> installed[a] < installed[b]
      ensures old(session).None? ==> session.None?
      ensures FreshOk(old(View())) && Unthreatened(old(View())) && NeverSubmitsOver(old(View()), es) ==>
        old(session).Some? && session.Some? ==> Freshness(old(session).value) <= Freshness(session.value)
    {
      ghost var start := View();
      if FreshOk(start) && Unthreatened(start) && NeverSubmitsOver(start, es) { RevisionsSurvive(start, es); }
      RunsAreSound(start, es);
      ClosedStaysClosed(start, es);
      hide Step;
      var i := 0;
      while i < |es|
        invariant 0 <= i <= |es|
        invariant Steps(start, es) == Steps(View(), es[i..])
      {
        assert es[i..][0] == es[i] && es[i..][1..] == es[i + 1..];
        Handle(es[i]);
        i := i + 1;
      }
      assert es[i..] == [];
    }
  }
}
