/**
 * What else a caller can count on (packages/daemon/src/thread-agent.ts): which comments can still be edited, what becomes
 * of a turn that throws, and which of the harness's words are nobody's.
 */
module AgentFacts {
  import opened Common
  import opened Text
  import opened AgentTurn
  import opened Transcript
  import opened Receipts
  import opened AgentQueue
  import opened AgentMachine
  import opened AgentSafety
  import opened AgentRuns

  // ---- comments ----

  predicate Submitted(s: AgentState, comment: Id) {
    exists i :: 0 <= i < |s.submissions| && s.submissions[i].comment == comment
  }

  predicate FirstComment(s: AgentState, n: nat, comment: Id) {
    n < |s.comments| && s.comments[n].id == comment && forall i :: 0 <= i < n ==> s.comments[i].id != comment
  }

  /** A comment that is submitted or sent can no longer be edited; one that is known and neither takes the new words in
      its place, unsent; a new one comes last, unsent, while there are fewer than 128. What is accepted is on disk. */
  lemma CommentsExactly(cfg: Config, m: Machine, comment: Id, body: string, quote: string)
    ensures var t := Step(cfg, m, SaveComment(comment, body, quote));
      var c := Comment(comment, body, quote, false);
      && (Submitted(m.mem, comment) ==> t == m)
      && (forall n: nat :: !Submitted(m.mem, comment) && FirstComment(m.mem, n, comment) ==>
            if m.mem.comments[n].sent then t == m else t.mem.comments == m.mem.comments[n := c] && t.disk == t.mem)
      && (!Submitted(m.mem, comment) && (forall n :: 0 <= n < |m.mem.comments| ==> m.mem.comments[n].id != comment) ==>
            if |m.mem.comments| >= 128 then t == m else t.mem.comments == m.mem.comments + [c] && t.disk == t.mem)
  {
    hide SettleReceipt;
    var k := IndexOfComment(m.mem.comments, comment);
    forall n: nat | FirstComment(m.mem, n, comment) ensures n == k {}
  }

  // ---- a turn that throws ----

  /** A turn whose connection throws: its submission has failed, its connection is given up, and nothing starts until that
      is closed; then the agent is at rest, the failure is saved with the next save, and the queue goes on. */
  lemma ThrownTurnsFail(cfg: Config, m: Machine, n: nat, text: string, session: string, t: Machine,
                        messages: seq<Message<MessageId>>, rendered: string, saved: bool)
    requires Sane(m) && n < |m.mem.submissions| && WithHarness(cfg, m, n, text, session, t, messages)
    ensures var f := Step(cfg, t, RunFail);
      var u := Step(cfg, Step(cfg, f, Retired), Flush);
      && f.active.None? && f.retiring && f.run.None? && f.disk == t.disk && f.mem.messages == messages
      && f.mem.submissions == m.mem.submissions[n := m.mem.submissions[n].(status := Failed, harnessPrompt := Some(text))]
      && Step(cfg, f, Drain(rendered, saved)) == f
      && Resting(u) && u.mem.phase == PhaseFailed && u.mem.submissions == f.mem.submissions && u.disk == u.mem
  {
    hide SettleReceipt;
    FirstWithId(m, n, t.mem.submissions);
    var failed := m.mem.submissions[n].(status := Failed, harnessPrompt := Some(text));
    assert Failer()(t.mem.submissions[n]) == failed;
    assert UpdateRun(t, Failer()) == m.mem.submissions[n := failed];
    hide UpdateRun, Sane;
  }

  // ---- words that are nobody's ----

  /** What comes from no connection, from one that has not answered yet, or while a summary is being written, is in no
      transcript; and text never changes anything but the transcript. */
  lemma StrayWords(cfg: Config, m: Machine, p: Piece)
    ensures var t := Step(cfg, m, TextEvent(p.name, p.text, p.replace));
      && (m.active.None? || m.active.value.summary || m.active.value.turn.Starting? ==> t == m)
      && t.mem.submissions == m.mem.submissions && t.mem.comments == m.mem.comments && t.mem.phase == m.mem.phase
      && t.active == m.active && t.run == m.run && t.move == m.move && t.sent == m.sent
  {
    hide SettleReceipt, ApplyUpdate;
  }

  // ---- a summary of nothing ----

  /** A summary of blanks is not taken: the handoff stays where it is and can only fail, and then the Thread is back on the
      harness it had, with its queue and its transcript. */
  lemma BlankSummariesFail(cfg: Config, m: Machine, text: string)
    requires m.move.Some? && m.move.value.stage == Summarizing && Trim(text) == ""
    ensures Step(cfg, m, MoveOn(TakeSummary(text))) == m
    ensures var t := Step(cfg, Step(cfg, Step(cfg, m, MoveOn(FailMove)), Retired), MoveOn(Restore));
      t.mem.harness == m.move.value.original && t.mem.handoff.None? && t.mem.phase == PhaseFailed && t.move.None?
      && t.mem.submissions == m.mem.submissions && t.mem.messages == m.mem.messages
  {
    FailedHandoffsGoBack(cfg, m);
  }
}
