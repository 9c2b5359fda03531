/**
 * The two components together: a Thread agent that redelivers prompts across crashes, over a harness
 * adapter that records one task per request.
 */
module AgentOverAcp {
  import opened Common
  import AgentMachine
  import AgentSafety
  import AgentDispatch
  import AcpDispatch
  import AcpTheorems

  /** The adapter is prompted only with what the agent dispatched, in any order and any number of times. */
  ghost predicate Carried(sent: seq<AgentMachine.Dispatch>, fs: seq<AcpDispatch.Event>) {
    forall i :: 0 <= i < |fs| && fs[i].Prompt? ==>
      exists k :: 0 <= k < |sent| && sent[k].request == fs[i].request && sent[k].text == fs[i].text
  }

  /** The agent did dispatch this request, and always in these words. */
  ghost predicate Verbatim(sent: seq<AgentMachine.Dispatch>, request: Id, text: string) {
    && (exists k :: 0 <= k < |sent| && sent[k].request == request)
    && (forall k :: 0 <= k < |sent| && sent[k].request == request ==> sent[k].text == text)
  }

  ghost function Texts(sent: seq<AgentMachine.Dispatch>): (texts: map<Id, string>)
    requires AgentDispatch.SameTexts(sent)
    ensures forall k :: 0 <= k < |sent| ==> sent[k].request in texts && texts[sent[k].request] == sent[k].text
    ensures forall r :: r in texts ==> exists k :: 0 <= k < |sent| && sent[k].request == r
  {
    map k | 0 <= k < |sent| :: sent[k].request := sent[k].text
  }

  lemma {:induction false} RunsAgree(recovery: bool, m: AcpDispatch.Machine, fs: seq<AcpDispatch.Event>, texts: map<Id, string>)
    requires AcpTheorems.Agrees(m, texts) && AcpTheorems.Drawn(fs, texts)
    ensures AcpTheorems.Agrees(AcpDispatch.Steps(recovery, m, fs), texts)
    decreases fs
  {
    if fs != [] {
      AcpTheorems.StepAgrees(recovery, m, fs[0], texts);
      RunsAgree(recovery, AcpDispatch.Step(recovery, m, fs[0]), fs[1..], texts);
    }
  }

  /** At-most-once dispatch across both: in any run of the agent that never puts a continuation in front of
      an already dispatched prompt, and any run of the adapter over its dispatches, with crashes anywhere in
      either, no prompt is refused as a reused ID, and the harness is told each request at most once, in the
      words the agent dispatched. */
  lemma {:induction false} ToldAtMostOnceVerbatim(cfg: AgentMachine.Config, es: seq<AgentMachine.Event>, recovery: bool, fs: seq<AcpDispatch.Event>)
    requires AgentDispatch.NeverRewrites(cfg, AgentMachine.START, es)
    requires Carried(AgentMachine.Steps(cfg, AgentMachine.START, es).sent, fs)
    ensures var sent := AgentMachine.Steps(cfg, AgentMachine.START, es).sent;
      var t := AcpDispatch.Steps(recovery, AcpDispatch.START, fs);
      && AcpTheorems.OncePerRequest(t)
      && (forall k :: 0 <= k < |fs| && fs[k].Prompt? ==>
            AcpDispatch.PromptTask(AcpDispatch.Steps(recovery, AcpDispatch.START, fs[..k]), fs[k].request, fs[k].text).1
              != AcpDispatch.Conflict)
      && (forall i :: 0 <= i < |t.calls| ==> Verbatim(sent, t.tasks[t.calls[i]].request, t.tasks[t.calls[i]].text))
  {
    AgentDispatch.OneTextPerRequest(cfg, AgentMachine.START, es);
    var sent := AgentMachine.Steps(cfg, AgentMachine.START, es).sent;
    var texts := Texts(sent);
    AcpTheorems.ToldAtMostOnce(recovery, fs);
    RunsAgree(recovery, AcpDispatch.START, fs, texts);
    forall k | 0 <= k < |fs| && fs[k].Prompt?
      ensures AcpDispatch.PromptTask(AcpDispatch.Steps(recovery, AcpDispatch.START, fs[..k]), fs[k].request, fs[k].text).1
        != AcpDispatch.Conflict
    {
      AcpTheorems.NeverConflicts(recovery, AcpDispatch.START, fs, texts, k);
    }
    var t := AcpDispatch.Steps(recovery, AcpDispatch.START, fs);
    forall i | 0 <= i < |t.calls|
      ensures Verbatim(sent, t.tasks[t.calls[i]].request, t.tasks[t.calls[i]].text)
    {
      var told := t.tasks[t.calls[i]];
      assert t.operations[told.request].text == told.text;
      assert told.request in texts && texts[told.request] == told.text;
    }
  }
}
