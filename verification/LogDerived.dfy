/** The lists `run_scenario` reads off the audit log (src/eval/runner.py), and what really happened. */
module LogDerived {
  import opened Options
  import opened Tools
  import opened Observations
  import opened Workflow
  import opened Durable
  import opened AuditLog
  import opened Termination

  // ---- Read off the log. ----

  function ProposedInLog(log: seq<LogRecord>): seq<Option<string>> {
    if log == [] then []
    else
      var r := log[|log| - 1];
      ProposedInLog(log[..|log| - 1]) + (if r.to == Some(ACTION_PROPOSED) then [r.action] else [])
  }

  /** The actions of the VERIFYING records; an empty action is left out. */
  function ExecutedInLog(log: seq<LogRecord>): seq<string> {
    if log == [] then []
    else
      var r := log[|log| - 1];
      ExecutedInLog(log[..|log| - 1]) +
      (if r.to == Some(VERIFYING) && r.action.Some? && r.action.value != "" then [r.action.value] else [])
  }

  predicate RollbackInLog(log: seq<LogRecord>) { exists i :: 0 <= i < |log| && log[i].to == Some(ROLLING_BACK) }

  // ---- What happened. ----

  function ProposedInRun(h: seq<Fact>): seq<Option<string>> {
    if h == [] then []
    else
      var f := h[|h| - 1];
      ProposedInRun(h[..|h| - 1]) + (if f.Committed? && f.node == ProposeAction then [f.after.action] else [])
  }

  function ExecutedInRun(h: seq<Fact>): seq<string> {
    if h == [] then []
    else
      var f := h[|h| - 1];
      ExecutedInRun(h[..|h| - 1]) +
      (if f.Committed? && f.node == Execute && f.after.action.Some? then [f.after.action.value] else [])
  }

  ghost predicate RollbackInRun(h: seq<Fact>) { exists f :: f in h && f.Committed? && f.node == RollingBack }

  /** No process dies and nothing is started again; a node may raise. */
  ghost predicate CrashFree(events: seq<Event>) {
    forall e | e in events :: !e.StartAgain? && (e.NodeRun? ==> e.crash == Survives)
  }

  ghost predicate Told(revalidating: bool, s: Sys) {
    Positioned(revalidating, s.checkpoint) && Lists(s)
  }

  ghost predicate Lists(s: Sys) {
    var c := s.checkpoint;
    && ProposedInLog(s.log) == ProposedInRun(s.history) && (forall a | a in ProposedInRun(s.history) :: a.Some?)
    && (c.next == Verify ==> c.state.action.Some?)
    && ExecutedInRun(s.history) == ExecutedInLog(s.log) + (if c.next == Verify then [c.state.action.value] else [])
    && (RollbackInLog(s.log) <==> RollbackInRun(s.history))
    && (forall f | f in s.history :: f.Died? ==> !f.logged)
  }

  lemma RunAppend(h: seq<Fact>, f: Fact)
    ensures ProposedInRun(h + [f]) ==
      ProposedInRun(h) + (if f.Committed? && f.node == ProposeAction then [f.after.action] else [])
    ensures ExecutedInRun(h + [f]) ==
      ExecutedInRun(h)
        + (if f.Committed? && f.node == Execute && f.after.action.Some? then [f.after.action.value] else [])
    ensures RollbackInRun(h + [f]) <==> RollbackInRun(h) || (f.Committed? && f.node == RollingBack)
  {
    assert (h + [f])[..|h|] == h;
    assert f in h + [f];
  }

  lemma LogAppend(log: seq<LogRecord>, r: LogRecord)
    ensures ProposedInLog(log + [r]) == ProposedInLog(log) + (if r.to == Some(ACTION_PROPOSED) then [r.action] else [])
    ensures ExecutedInLog(log + [r]) ==
      ExecutedInLog(log)
        + (if r.to == Some(VERIFYING) && r.action.Some? && r.action.value != "" then [r.action.value] else [])
    ensures RollbackInLog(log + [r]) <==> RollbackInLog(log) || r.to == Some(ROLLING_BACK)
  {
    var m := log + [r];
    assert m[..|log|] == log && m[|log|] == r;
    assert forall i :: 0 <= i < |log| ==> m[i] == log[i];
  }

  /** A commit told by its status: each of these statuses is written by one node only. */
  lemma StatusTellsNode(revalidating: bool, node: Node, s: AgentState, r: Reply)
    requires Positioned(revalidating, Checkpoint(node, s)) && Update(node, s, r).Some?
    ensures var after := Update(node, s, r).value;
      && Positioned(revalidating, Checkpoint(Next(revalidating, node, after), after))
      && (after.status == Some(ACTION_PROPOSED) <==> node == ProposeAction)
      && (after.status == Some(VERIFYING) <==> node == Verify)
      && (after.status == Some(ROLLING_BACK) <==> node == RollingBack)
      && (Next(revalidating, node, after) == Verify <==> node == Execute)
      && (node in {Execute, Verify} ==> after.action == s.action)
      && (node == ProposeAction ==> after.action.Some?)
  {
    UpdatePositions(revalidating, node, s, r);
  }

  /** `execute` and `verify` only come through with an action. */
  lemma ActionThere(c: Checkpoint, w: World, ledger: Ledger, o: Oracle)
    requires c.next == Execute || c.next == Verify
    requires Ask(c.next, c.state, w, ledger, o).Some?
    ensures c.state.action.Some? && c.state.action.value != ""
  {
  }

  /** One committed node: a record for it, a fact for it, and perhaps a tool call. */
  lemma CommitTold(s: Sys, t: Sys, r: LogRecord, calls: seq<Fact>, after: AgentState)
    requires Lists(s)
    requires var node := s.checkpoint.next;
      && (after.status == Some(ACTION_PROPOSED) <==> node == ProposeAction)
      && (after.status == Some(VERIFYING) <==> node == Verify)
      && (after.status == Some(ROLLING_BACK) <==> node == RollingBack)
      && (t.checkpoint.next == Verify <==> node == Execute)
      && (node in {Execute, Verify} ==>
            after.action == s.checkpoint.state.action && after.action.Some? && after.action.value != "")
      && (node == ProposeAction ==> after.action.Some?)
      && t.history == s.history + calls + [Committed(node, s.checkpoint.state, after)]
    requires t.checkpoint.state == after
    requires t.log == s.log + [r] && r.to == after.status && r.action == after.action
    requires |calls| <= 1 && forall f | f in calls :: f.ToolCalled?
    ensures Lists(t)
  {
    LogAppend(s.log, r);
    if |calls| == 1 {
      assert calls == [calls[0]] && calls[0] in calls;
      RunAppend(s.history, calls[0]);
    } else {
      assert s.history + calls == s.history;
    }
    RunAppend(s.history + calls, Committed(s.checkpoint.next, s.checkpoint.state, after));
  }

  lemma StepTold(revalidating: bool, s: Sys, e: Event)
    requires Told(revalidating, s) && CrashFree([e])
    ensures Told(revalidating, Step(revalidating, s, e))
  {
    assert e in [e];
    var c := s.checkpoint;
    if e.NodeRun? && c.next != End {
      var body := RunBody(c, s.world, s.ledger, e.oracle);
      if body.None? {
        RunAppend(s.history, Died(c.next, false, false));
      } else {
        var answer := Ask(c.next, c.state, s.world, s.ledger, e.oracle).value;
        if c.next == Execute || c.next == Verify {
          ActionThere(c, s.world, s.ledger, e.oracle);
        }
        StatusTellsNode(revalidating, c.next, c.state, answer.3);
        CommitTold(s, Step(revalidating, s, e), MakeRecord(e.timestamp, c.next, c.state, body.value.after),
                   CallFacts(body.value.call, true), body.value.after);
      }
    }
  }

  /** Over every run without crashes - a node may raise, others may interfere - the lists read off the audit
      log are what happened: the proposals in order, the executions in order (one still waiting for
      its verification aside), and whether anything was rolled back. */
  lemma {:induction false} LogTellsTheRun(revalidating: bool, runId: string, s: Sys, events: seq<Event>)
    requires Fresh(s, runId) && CrashFree(events)
    ensures Told(revalidating, Run(revalidating, s, events))
  {
    if events != [] {
      var n := |events| - 1;
      assert events[n] in events && forall e | e in events[..n] :: e in events;
      LogTellsTheRun(revalidating, runId, s, events[..n]);
      StepTold(revalidating, Run(revalidating, s, events[..n]), events[n]);
    }
  }

  // ---- A tier above low is never passed without an approval being consumed. ----

  predicate NeedsApproval(tier: Option<Tier>) { tier == Some(MediumRisk) || tier == Some(HighRisk) }

  ghost predicate GateKept(s: Sys) {
    NeedsApproval(s.checkpoint.state.tier) ==>
      s.checkpoint.next == MarkAwaiting || s.checkpoint.next == AwaitApproval || CommitsOf(s.history, AwaitApproval) > 0
  }

  lemma CommitKeepsTier(revalidating: bool, node: Node, s: AgentState, r: Reply)
    requires Update(node, s, r).Some?
    ensures var after := Update(node, s, r).value;
      && (node != ClassifyRisk ==> after.tier == s.tier)
      && (node == ClassifyRisk && NeedsApproval(after.tier) ==> Next(revalidating, node, after) == MarkAwaiting)
      && (node == MarkAwaiting ==> Next(revalidating, node, after) == AwaitApproval)
  {
  }

  lemma StepKeepsGate(revalidating: bool, s: Sys, e: Event)
    requires GateKept(s) && !e.StartAgain?
    ensures GateKept(Step(revalidating, s, e))
  {
    var t, g := Step(revalidating, s, e), Added(revalidating, s, e);
    var reply := CheckpointStep(revalidating, s, e);
    if t.checkpoint == s.checkpoint && forall f | f in g :: f.ToolCalled? || f.Died? {
      CountsOfFacts(s.history, g);
    } else {
      LastCommitKeepsGate(revalidating, s, t, g, reply);
    }
  }

  lemma LastCommitKeepsGate(revalidating: bool, s: Sys, t: Sys, g: seq<Fact>, reply: Reply)
    requires GateKept(s) && t.history == s.history + g && g != []
    requires Update(s.checkpoint.next, s.checkpoint.state, reply).Some?
    requires var after := Update(s.checkpoint.next, s.checkpoint.state, reply).value;
      && t.checkpoint == Checkpoint(Next(revalidating, s.checkpoint.next, after), after)
      && g[|g| - 1] == Committed(s.checkpoint.next, s.checkpoint.state, after)
    requires forall f | f in g[..|g| - 1] :: f.ToolCalled?
    ensures GateKept(t)
  {
    var n := |g| - 1;
    forall f | f in g[..n]
      ensures !f.Committed?
    {
      assert f.ToolCalled?;
    }
    CountsOfFacts(s.history, g[..n]);
    CountsOfCommit(s.history + g[..n], g[n]);
    assert t.history == s.history + g[..n] + [g[n]];
    CommitKeepsTier(revalidating, s.checkpoint.next, s.checkpoint.state, reply);
  }

  /** Over every run never started again, whatever crashes it meets: once the tier is above low, the run waits for an
      approval or has consumed one. */
  lemma {:induction false} TierWaits(revalidating: bool, runId: string, s: Sys, events: seq<Event>)
    requires Fresh(s, runId)
    requires forall e | e in events :: !e.StartAgain?
    ensures GateKept(Run(revalidating, s, events))
  {
    if events != [] {
      var n := |events| - 1;
      assert events[n] in events && forall e | e in events[..n] :: e in events;
      TierWaits(revalidating, runId, s, events[..n]);
      StepKeepsGate(revalidating, Run(revalidating, s, events[..n]), events[n]);
    }
  }
}
