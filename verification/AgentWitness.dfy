/**
 * Concrete runs from a new Thread that reach the situations the theorems set aside, so none of those
 * conditions is empty: a prompt rolled back in flight, a dispatched prompt rewritten, a racing switch, a
 * comment submitted twice. And a new Thread satisfies what they assume.
 */
module AgentWitness {
  import opened Common
  import opened AgentTurn
  import opened Transcript
  import opened Receipts
  import opened AgentQueue
  import opened AgentMachine
  import AgentComments
  import AgentGuards
  import AgentSafety
  import AgentTheorems
  import AgentHandoff
  import AgentHistory
  import AgentLedger
  import AgentReceipts
  import AgentTranscript
  import AgentDispatch
  import Text
  import Utf8

  const CFG := Config({"x", "y", "z"}, {"x", "y", "z"}, "x")
  const OPEN_REVIEW := Review(true, [])
  const X := Harness("x", Some("s"))

  /** The prompt "a", and a retry of a submission that has not failed. */
  const ASK := PromptRequest(None, "a", None, None, None, true, None)
  const TOO_SOON := PromptRequest(None, "", None, Some(Uuid(0)), None, false, None)

  const SAID := [Message(OfInput(Uuid(0)), Uuid(0), true, "a", true)]

  function Sub(status: Status, told: Option<string>): Submission {
    Submission(Uuid(0), Uuid(0), "a", "", None, told, None, status, false)
  }

  function Record(harness: Harness, phase: Phase, sub: Submission): AgentState {
    AgentState(Some(harness), phase, SAID, [], [sub], [], None, None)
  }

  lemma AcceptsA()
    ensures Accept(INITIAL, ASK, OPEN_REVIEW, 0, "x") == Ok(Record(Harness("x", None), PhaseIdle, Sub(Queued, None)))
  {
    Text.TrimOfTrimmed("a");
    assert Utf8.ByteLength("a") == 1 && Utf8.ByteLength("") == 0;
    var b := Bound(INITIAL, "x");
    var input := QueueInput("a", "", None, None);
    assert Used(b.messages) == 0 && Fits(b, input);
    assert EnqueuePlain(b, ASK, 0) == Enqueue(b, input, Uuid(0));
    assert EnqueueBatch(b, ASK, OPEN_REVIEW, 0) == EnqueuePlain(b, ASK, 0);
    var s := Record(Harness("x", None), PhaseIdle, Sub(Queued, None));
    assert NewSubmission(Uuid(0), input) == Sub(Queued, None);
    assert [] + [Sub(Queued, None)] == s.submissions && [] + SAID == SAID;
    assert Enqueue(b, input, Uuid(0)) == Ok(s);
    assert EnqueueRequest(b, ASK, OPEN_REVIEW, 0) == Ok(s);
  }

  /** After the prompt, its drain and the harness's connection: one submission running, one prompt sent. */
  function Prompting(): Machine {
    var s := Record(X, PhaseRunning, Sub(Running, Some("a")));
    Machine(s, s, Some(Active(TurnRunning, Uuid(0), None, false)), false,
            Some(Run(Uuid(0), None, "a", true, RunPrompting)), None, 1, [Dispatch(Uuid(0), "a", "x")])
  }

  const TO_PROMPTING := [AcceptPrompt(ASK, OPEN_REVIEW, true), Drain("a", true), Connected("s")]

  function AfterPrompt(): Machine {
    var s := Record(Harness("x", None), PhaseIdle, Sub(Queued, None));
    START.(mem := s, disk := s, next := 1)
  }

  function AfterDrain(): Machine {
    var s := Record(Harness("x", None), PhaseRunning, Sub(Running, Some("a")));
    AfterPrompt().(mem := s, disk := s, active := Some(Active(Starting(false), Uuid(0), None, false)),
                   run := Some(Run(Uuid(0), None, "a", true, RunConnecting)))
  }

  lemma FirstStep()
    ensures Step(CFG, START, TO_PROMPTING[0]) == AfterPrompt()
  {
    AcceptsA();
    hide Accept;
    assert Settle(AfterPrompt().mem) == AfterPrompt().mem;
  }

  lemma SecondStep()
    ensures Step(CFG, AfterPrompt(), TO_PROMPTING[1]) == AfterDrain()
  {
    var s := AfterPrompt().mem;
    assert FirstQueued(s.submissions) == 0;
    assert s.submissions[0 := Sub(Running, Some("a"))] == [Sub(Running, Some("a"))];
    assert Settle(AfterDrain().mem) == AfterDrain().mem;
  }

  lemma ThirdStep()
    ensures Step(CFG, AfterDrain(), TO_PROMPTING[2]) == Prompting()
  {
    var bound := AfterDrain().mem.(harness := Some(X));
    assert Settle(bound) == bound;
  }

  lemma Prompts()
    ensures Steps(CFG, START, TO_PROMPTING) == Prompting()
  {
    FirstStep();
    SecondStep();
    ThirdStep();
    hide Step;
    ThreeSteps(START, TO_PROMPTING[0], TO_PROMPTING[1], TO_PROMPTING[2]);
  }

  lemma ThreeSteps(m: Machine, e: Event, f: Event, g: Event)
    ensures Steps(CFG, m, [e, f, g]) == Step(CFG, Step(CFG, Step(CFG, m, e), f), g)
  {
    hide Step;
    assert [e, f, g][1..] == [f, g] && [f, g][1..] == [g] && [g][1..] == [];
    var a := Step(CFG, m, e);
    var b := Step(CFG, a, f);
    assert Steps(CFG, b, [g]) == Steps(CFG, Step(CFG, b, g), []);
    assert Steps(CFG, a, [f, g]) == Steps(CFG, b, [g]);
  }

  lemma TooSoon()
    ensures AgentTheorems.RollsBackInFlight(CFG, Prompting(), AcceptPrompt(TOO_SOON, OPEN_REVIEW, true))
    ensures AgentSafety.Sane(Prompting())
  {
    var m := Prompting();
    assert IndexOfSubmission(m.mem.submissions, Uuid(0)) == 0;
    assert !AgentGuards.Acceptable(m.mem, TOO_SOON, OPEN_REVIEW);
  }

  lemma StrandedFromPrompting()
    ensures var r := Prompting().(run := Some(Prompting().run.value.(linked := false)));
      AgentTheorems.Stranded(Uuid(0), RunFinished(r, OutcomeCompleted))
  {
    var r := Prompting().(run := Some(Prompting().run.value.(linked := false)));
    var t := RunFinished(r, OutcomeCompleted);
    assert t.mem.submissions[0].status == Running && t.mem.submissions[0].id == Uuid(0);
  }

  /** A retry that comes too soon is rolled back while the run is in flight, and the Thread ends up idle with
      a submission still marked running. */
  lemma RollbackHappens()
    ensures var m := Steps(CFG, START, TO_PROMPTING);
      var e := AcceptPrompt(TOO_SOON, OPEN_REVIEW, true);
      && AgentTheorems.RollsBackInFlight(CFG, m, e)
      && AgentTheorems.Stranded(Uuid(0), Step(CFG, Step(CFG, m, e), Finish(OutcomeCompleted)))
  {
    Prompts();
    TooSoon();
    StrandedFromPrompting();
    hide Prompted, Steps, RunFinished, Prompting, AgentTheorems.RollsBackInFlight;
    var m := Prompting();
    var e := AcceptPrompt(TOO_SOON, OPEN_REVIEW, true);
    assert m.run.Some? by { RunInFlight(); }
    AgentTheorems.RolledBack(CFG, m, e);
    AgentTheorems.StepIsFinish(CFG, Step(CFG, m, e), OutcomeCompleted);
  }

  lemma RunInFlight()
    ensures Prompting().run.Some?
  {
  }

  lemma {:induction false} StepsTwo(m: Machine, es: seq<Event>, fs: seq<Event>)
    ensures Steps(CFG, m, es + fs) == Steps(CFG, Steps(CFG, m, es), fs)
    decreases es
  {
    hide Step;
    if es == [] {
      assert es + fs == fs;
    } else {
      assert (es + fs)[1..] == es[1..] + fs;
      StepsTwo(Step(CFG, m, es[0]), es[1..], fs);
    }
  }

  // ---- a handoff completes between a crash and the redispatch ----

  /** The record after the crash: the submission queued again, with what it was told. */
  function Requeued(harness: Harness, phase: Phase, continuation: Option<string>, handoff: Option<Handoff>): AgentState {
    AgentState(Some(harness), phase, SAID, [], [Sub(Queued, Some("a"))], [], continuation, handoff)
  }

  function Moving(s: AgentState, turn: Option<Turn>, summary: bool, retiring: bool, move: Option<Move>, next: nat, sent: seq<Dispatch>): Machine {
    Machine(s, s, if turn.Some? then Some(Active(turn.value, Uuid(1), None, summary)) else None, retiring, None, move, next, sent)
  }

  function ToY(stage: Stage, prompt: Option<string>): Handoff {
    Handoff("y", None, Uuid(1), Some(X), stage, prompt)
  }

  function MoveY(stage: MoveStage): Option<Move> {
    Some(Move(stage, ToY(HandoffQueued, None), Some(X)))
  }

  const FIRST_SENT := [Dispatch(Uuid(0), "a", "x")]
  const BOTH_SENT := [Dispatch(Uuid(0), "a", "x"), Dispatch(Uuid(1), "r", "x")]

  const SWITCHING := [Crash, SwitchHarness("y"), Drain("", true)]
  const SUMMARIZING := [MoveOn(ConnectSource("s")), MoveOn(AskSummary("r")), MoveOn(TakeSummary("h"))]
  const LEAVING := [MoveOn(Prepare), Retired, MoveOn(Retarget)]
  const ARRIVING := [MoveOn(ConnectTarget("t")), MoveOn(MoveStep.Complete)]

  function Switching(): Machine {
    Moving(Requeued(X, PhaseRunning, None, Some(ToY(HandoffQueued, None))), Some(Starting(false)), false, false, MoveY(NeedsSummary), 2, FIRST_SENT)
  }

  function Summarized(): Machine {
    Moving(Requeued(X, PhaseRunning, None, Some(ToY(HandoffSummarizing, Some("r")))), Some(TurnRunning), true, false, MoveY(HasText("h")), 2, BOTH_SENT)
  }

  /** The record of a prepared handoff, before and after the harness changes in memory. */
  function Prepared(harness: Harness): AgentState {
    Requeued(harness, PhaseRunning, None, Some(ToY(HandoffPrepared("h"), None)))
  }

  function Left(): Machine {
    Moving(Prepared(X), Some(Starting(false)), false, false, MoveY(Retargeted("h")), 2, BOTH_SENT).(mem := Prepared(Harness("y", Some("s"))))
  }

  function Arrived(): Machine {
    Moving(Requeued(Harness("y", Some("t")), PhaseIdle, Some("h"), None), Some(TurnIdle), false, false, None, 3, BOTH_SENT)
  }

  lemma Switches()
    ensures Steps(CFG, Prompting(), SWITCHING) == Switching()
  {
    var idle := Requeued(X, PhaseIdle, None, None);
    var a := Moving(idle, None, false, false, None, 1, FIRST_SENT).(disk := Prompting().disk);
    assert Step(CFG, Prompting(), Crash) == a by {
      var d := Prompting().disk;
      assert Interrupted(d) && Recoverable(CFG, d);
      assert ResetSubmissions(d.submissions, true) == idle.submissions;
      assert Settle(idle) == idle;
    }
    var asked := Requeued(X, PhaseIdle, None, Some(ToY(HandoffQueued, None)));
    var b := Moving(asked, None, false, false, None, 2, FIRST_SENT);
    assert Step(CFG, a, SwitchHarness("y")) == b by { assert Settle(asked) == asked; }
    var begun := Switching().mem;
    assert Step(CFG, b, Drain("", true)) == Switching() by { assert Settle(begun) == begun; }
    ThreeSteps(Prompting(), Crash, SwitchHarness("y"), Drain("", true));
  }

  lemma Summarizes()
    ensures Steps(CFG, Switching(), SUMMARIZING) == Summarized()
  {
    var m := Switching();
    var a := Moving(m.mem, Some(TurnRunning), false, false, MoveY(SourceReady), 2, FIRST_SENT);
    assert Step(CFG, m, MoveOn(ConnectSource("s"))) == a by { assert Settle(m.mem) == m.mem; }
    var s := Summarized().mem;
    var b := Moving(s, Some(TurnRunning), true, false, MoveY(Summarizing), 2, BOTH_SENT);
    assert Step(CFG, a, MoveOn(AskSummary("r"))) == b by { assert Settle(s) == s; }
    assert Step(CFG, b, MoveOn(TakeSummary("h"))) == Summarized() by { Text.TrimOfTrimmed("h"); }
    ThreeSteps(m, SUMMARIZING[0], SUMMARIZING[1], SUMMARIZING[2]);
  }

  lemma Leaves()
    ensures Steps(CFG, Summarized(), LEAVING) == Left()
  {
    var s := Prepared(X);
    var a := Moving(s, None, false, true, MoveY(Retiring("h", Some("s"))), 2, BOTH_SENT);
    assert Step(CFG, Summarized(), MoveOn(Prepare)) == a by { assert Settle(s) == s; }
    var b := a.(retiring := false);
    assert Step(CFG, a, Retired) == b;
    assert Step(CFG, b, MoveOn(Retarget)) == Left();
    ThreeSteps(Summarized(), LEAVING[0], LEAVING[1], LEAVING[2]);
  }

  lemma Arrives()
    ensures Steps(CFG, Left(), ARRIVING) == Arrived()
  {
    var s := Prepared(Harness("y", Some("t")));
    var a := Moving(s, Some(TurnRunning), false, false, MoveY(TargetReady("h")), 2, BOTH_SENT);
    assert Step(CFG, Left(), MoveOn(ConnectTarget("t"))) == a by { assert Settle(s) == s; }
    var t := Arrived().mem;
    assert Step(CFG, a, MoveOn(MoveStep.Complete)) == Arrived() by { assert Settle(t) == t; }
    assert ARRIVING[1..] == [MoveOn(MoveStep.Complete)] && ARRIVING[1..][1..] == [];
    assert Steps(CFG, a, ARRIVING[1..]) == Steps(CFG, Arrived(), []);
  }

  /** The prompt dispatched to the first harness before a crash is rewritten, under the same request ID, for
      the second one. */
  lemma {:induction false} RewriteHappens()
    ensures var m := Steps(CFG, START, TO_PROMPTING + (SWITCHING + (SUMMARIZING + (LEAVING + ARRIVING))));
      var e := Drain("", true);
      && AgentDispatch.Rewrites(CFG, m, e)
      && !AgentDispatch.SameTexts(Step(CFG, Step(CFG, m, e), Connected("u")).sent)
  {
    Prompts();
    Switches();
    Summarizes();
    Leaves();
    Arrives();
    StepsTwo(Summarized(), LEAVING, ARRIVING);
    StepsTwo(Switching(), SUMMARIZING, LEAVING + ARRIVING);
    StepsTwo(Prompting(), SWITCHING, SUMMARIZING + (LEAVING + ARRIVING));
    StepsTwo(START, TO_PROMPTING, SWITCHING + (SUMMARIZING + (LEAVING + ARRIVING)));
    ArrivedRewrites();
  }

  lemma ArrivedRewrites()
    ensures var e := Drain("", true);
      && AgentDispatch.Rewrites(CFG, Arrived(), e)
      && !AgentDispatch.SameTexts(Step(CFG, Step(CFG, Arrived(), e), Connected("u")).sent)
  {
    var m := Arrived();
    assert FirstQueued(m.mem.submissions) == 0;
    assert m.sent[0].request == AgentDispatch.RequestOf(m.mem.submissions[0]);
    var t := StartSubmission(m, 0, "");
    assert t == Step(CFG, m, Drain("", true));
    var u := RunConnected(CFG, t, "u");
    assert u.sent == BOTH_SENT + [Dispatch(Uuid(0), Continue("h", "a"), "y")];
    AgentDispatch.ContinueChanges("h", "a");
    assert u.sent[0].request == u.sent[2].request && u.sent[0].text != u.sent[2].text;
  }

  // ---- a switch races a handoff that has begun ----

  lemma SwitchingIsReached()
    ensures Steps(CFG, START, TO_PROMPTING + SWITCHING) == Switching()
  {
    Prompts();
    Switches();
    hide Step;
    StepsTwo(START, TO_PROMPTING, SWITCHING);
  }

  /** The handoff's harness asks for a permission before the handoff is saved past `queued`; a switch to a third
      harness is accepted, and the handoff's next save drops it. */
  lemma RaceHappens()
    ensures var s := Steps(CFG, START, TO_PROMPTING + SWITCHING);
      var m := Step(CFG, Step(CFG, s, MoveOn(ConnectSource("s"))), AskPermission("p"));
      && AgentHandoff.Races(m, SwitchHarness("z")) && AgentHandoff.SwitchAccepted(CFG, m, SwitchHarness("z"))
      && AgentHandoff.Heading(CFG, Step(CFG, m, SwitchHarness("z")).mem) == "z"
      && AgentHandoff.Heading(CFG, Step(CFG, Step(CFG, m, SwitchHarness("z")), MoveOn(AskSummary("r"))).mem) == "y"
  {
    SwitchingIsReached();
    hide Steps;
    RaceFromSwitching();
  }

  lemma RaceFromSwitching()
    ensures var m := Step(CFG, Step(CFG, Switching(), MoveOn(ConnectSource("s"))), AskPermission("p"));
      && AgentHandoff.Races(m, SwitchHarness("z")) && AgentHandoff.SwitchAccepted(CFG, m, SwitchHarness("z"))
      && AgentHandoff.Heading(CFG, Step(CFG, m, SwitchHarness("z")).mem) == "z"
      && AgentHandoff.Heading(CFG, Step(CFG, Step(CFG, m, SwitchHarness("z")), MoveOn(AskSummary("r"))).mem) == "y"
  {
    var s := Switching();
    var a := Moving(s.mem, Some(TurnRunning), false, false, MoveY(SourceReady), 2, FIRST_SENT);
    assert Step(CFG, s, MoveOn(ConnectSource("s"))) == a by { assert Settle(s.mem) == s.mem; }
    var asked := s.mem.(phase := PhasePermission("p"));
    var m := a.(mem := asked, disk := asked);
    assert Step(CFG, a, AskPermission("p")) == m by { assert Settle(asked) == asked; }
    assert AgentHandoff.HandoffOk(CFG, m);
    AgentHandoff.RacingSwitchIsLost(CFG, m, "z", "r");
  }

  // ---- the start ----

  /** A new Thread satisfies every invariant that the theorems about runs start from. */
  lemma StartIsOk(cfg: Config)
    ensures AgentSafety.Sane(START) && AgentTheorems.OneRunning(START)
    ensures AgentLedger.LedgerOk(cfg, START) && AgentReceipts.DecidedOk(START)
    ensures AgentHandoff.HandoffOk(cfg, START) && AgentDispatch.DispatchOk(START)
    ensures AgentHistory.Saved(START) && AgentTranscript.TranscriptOk(START) && AgentComments.NamesAhead(START)
  {
    assert SettleAll([], []) == [];
  }

  // ---- one comment submitted twice ----

  const NOTE := Review(true, [Annotation(Key("c"), "b", "", true)])
  const ASK_NOTE := PromptRequest(None, "", None, None, Some(Key("c")), false, None)
  const MIRROR := PromptRequest(Some("c"), "a", None, None, None, true, None)
  const TWICE := [AcceptPrompt(ASK_NOTE, NOTE, true), AcceptPrompt(MIRROR, OPEN_REVIEW, true)]

  function AfterNote(): Machine {
    var s := AgentState(Some(Harness("x", None)), PhaseIdle, [Message(OfInput(Uuid(0)), Uuid(0), true, "b", true)], [],
                        [Submission(Uuid(0), Key("c"), "b", "", None, None, None, Queued, false)], [], None, None);
    START.(mem := s, disk := s, next := 2)
  }

  lemma AcceptsNote()
    ensures Accept(INITIAL, ASK_NOTE, NOTE, 0, "x") == Ok(AfterNote().mem)
  {
    assert Utf8.ByteLength("b") == 1 && Utf8.ByteLength("") == 0;
    var b := Bound(INITIAL, "x");
    var input := QueueInput("b", "", Some(Key("c")), None);
    assert IndexOfAnnotation(NOTE.annotations, Key("c")) == 0;
    assert CommentInput(b, NOTE, Key("c"), None) == Some(input);
    assert Used(b.messages) == 0 && Fits(b, input);
    var s := AfterNote().mem;
    assert NewSubmission(Uuid(0), input) == s.submissions[0];
    assert [] + [NewSubmission(Uuid(0), input)] == s.submissions && AppendInput([], OfInput(Uuid(0)), Uuid(0), "b") == s.messages;
    assert EnqueueComment(b, NOTE, Key("c"), None, Uuid(0)) == Ok(s);
    assert EnqueueRequest(b, ASK_NOTE, NOTE, 0) == Ok(s);
  }

  lemma FirstOfTwice()
    ensures Step(CFG, START, TWICE[0]) == AfterNote()
  {
    AcceptsNote();
    hide Accept;
    assert Settle(AfterNote().mem) == AfterNote().mem;
  }

  lemma MirrorCollides()
    ensures AgentComments.Collides(CFG, AfterNote(), TWICE[1])
  {
    Text.TrimOfTrimmed("a");
    assert Utf8.ByteLength("a") == 1 && Utf8.ByteLength("b") == 1 && Utf8.ByteLength("") == 0;
    var s := AfterNote().mem;
    assert s.submissions[0].comment == Key("c");
    assert Used(s.messages) == 1 by { assert s.messages[1..] == []; }
    assert ActiveCount(s.submissions) == 1 by { assert s.submissions[1..] == []; }
    var inputs := AgentGuards.BatchInputs(s, MIRROR, OPEN_REVIEW);
    assert inputs == [QueueInput("a", "", None, None)];
    assert inputs[1..] == [] && AgentGuards.TotalBytes(inputs) == 1;
    assert AgentGuards.Room(s, inputs);
  }

  /** A note is asked about, and a shared request whose operation ID is the note's identity is accepted while
      the note is still in the queue: two submissions carry the same comment. */
  lemma CommentIsSubmittedTwice()
    ensures !AgentComments.NeverCollides(CFG, START, TWICE)
    ensures !AgentComments.DistinctComments(Steps(CFG, START, TWICE).mem.submissions)
  {
    FirstOfTwice();
    MirrorCollides();
    hide Step, AgentComments.Collides, AgentComments.DistinctComments;
    assert TWICE[1..] == [TWICE[1]] && TWICE[1..][1..] == [];
    assert AgentComments.NamesKnown(START, TWICE[0]) && AgentComments.NamesKnown(AfterNote(), TWICE[1]);
    assert AgentComments.NamesKnownInRun(CFG, Step(CFG, AfterNote(), TWICE[1]), []);
    assert AgentComments.NamesKnownInRun(CFG, AfterNote(), TWICE[1..]);
    AgentComments.NoCommentIsSubmittedTwice(CFG, TWICE);
  }
}
