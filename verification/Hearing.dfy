/** What one node run makes of the answers it gets: which channels it writes, what it writes into them, and which node
    comes next (src/agent/nodes.py, src/agent/graph.py). */
module Hearing {
  import opened Options
  import opened Actions
  import opened Tools
  import opened Observations
  import opened Workflow
  import opened Durable
  import opened AuditLog
  import opened Effects
  import opened Readings
  import opened Evidence

  /** Each channel is written by the nodes named here and by no other. */
  ghost predicate OnlyWrites(node: Node, s: AgentState, t: AgentState) {
    && t.runId == s.runId
    && (t.observations == s.observations || node in {Diagnose, Revalidate})
    && (t.diagnosis == s.diagnosis || node == Diagnose)
    && (t.action == s.action || node in {ProposeAction, AwaitApproval})
    && ((t.params == s.params && t.invalid == s.invalid) || node == ProposeAction)
    && (t.fingerprint == s.fingerprint || node in {ProposeAction, AwaitApproval, Revalidate})
    && ((t.llmTier == s.llmTier && t.tier == s.tier && t.floorApplied == s.floorApplied) || node == ClassifyRisk)
    && ((t.decision == s.decision && t.approver == s.approver) || node == AwaitApproval)
    && (t.drift == s.drift || node == Revalidate)
    && (t.key == s.key || node == PrepareExecution)
    && ((t.result == s.result && t.compensation == s.compensation) || node == Execute)
    && (t.verified == s.verified || node == Verify)
    && ((t.cycles == s.cycles && t.replanContext == s.replanContext) || node == Replan)
    && (t.finalState == s.finalState || node in {Escalate, Complete})
  }

  /** A new thread holds its run id and nothing else. */
  lemma StartsBlank(s: Sys, runId: string)
    requires Fresh(s, runId)
    ensures s.checkpoint.next == Diagnose && s.checkpoint.state ==
      AgentState(runId, None, None, None, None, Params(Missing, Missing, Missing, Missing), None, None, None, None,
                 false, None, None, None, None, None, None, None, 0, None, None)
  {
  }

  /** The status a node leaves; a decision leaves the one it finds. */
  ghost predicate Announces(node: Node, s: AgentState, t: AgentState) {
    match node
    case Diagnose => t.status == Some(DIAGNOSING)
    case ProposeAction => t.status == Some(ACTION_PROPOSED)
    case ClassifyRisk => t.status == Some(RISK_CLASSIFIED)
    case MarkAwaiting => t.status == Some(AWAITING_APPROVAL)
    case AwaitApproval => t.status == s.status
    case Revalidate => t.status == Some(REVALIDATING)
    case PrepareExecution => t.status == Some(EXECUTING)
    case Execute => t.status == Some(EXECUTING)
    case Verify => t.status == Some(VERIFYING)
    case RollingBack => t.status == Some(ROLLING_BACK)
    case RolledBack => t.status == Some(ROLLED_BACK)
    case Replan => t.status == Some(REPLANNING)
    case Escalate => t.status == Some(ESCALATED) && t.finalState == Some(ESCALATED)
    case Complete => t.status == Some(COMPLETED) && t.finalState == Some(COMPLETED)
    case End => false
  }

  /** From `s`, with the answers of `o`, to `t`: what the node that ran took over from its answer, from the sandbox or
      from the ledger, and where that led. */
  ghost predicate Heard(revalidating: bool, s: Sys, o: Oracle, t: Sys) {
    var c, d, next := s.checkpoint.state, t.checkpoint.state, t.checkpoint.next;
    match s.checkpoint.next
    case Diagnose =>
      && d.observations.Some? && d.observations == Gather(s.world) && d.diagnosis == Some(o.summary)
      && next == ProposeAction
    case ProposeAction => Proposes(c, o, d) && next == (if d.invalid.Some? then Replan else ClassifyRisk)
    case ClassifyRisk =>
      && c.observations.Some? && c.action.Some? && Parse(c.action.value).Some? && d.tier.Some?
      && d.llmTier == Some(o.llm)
      && TierByRule(Parse(c.action.value).value, o.llm, c.observations.value, d.tier.value)
      && next == (if d.tier == Some(LowRisk) then PrepareExecution else MarkAwaiting)
    case MarkAwaiting => next == AwaitApproval
    case AwaitApproval => TakesDecision(c, o, d) && next == AfterDecision(revalidating, o.decision)
    case Revalidate =>
      && d.observations.Some? && d.observations == Gather(s.world)
      && c.action.Some? && d.fingerprint.Some? && d.fingerprint == Fingerprint(d.observations.value, c.action.value)
      && d.drift == Some(c.fingerprint != d.fingerprint)
      && next == (if d.drift == Some(true) then Replan else PrepareExecution)
    case PrepareExecution => c.action.Some? && d.key == Some(c.runId + ":" + c.action.value) && next == Execute
    case Execute =>
      && c.action.Some? && c.key.Some?
      && var out := ExecuteAction(s.world, s.ledger, c.action.value, c.params, c.key.value);
      && out.Some? && t.world == out.value.world && t.ledger == out.value.ledger
      && d.result == Some(out.value.entry.result) && d.compensation == Some(out.value.entry.compensation)
      && next == Verify
    case Verify =>
      && c.action.Some? && c.result.Some? && d.verified.Some?
      && d.verified == VerifyAction(s.world, c.action.value, c.result.value)
      && next == (if d.verified == Some(true) then Complete else RollingBack)
    case RollingBack =>
      c.compensation.Some? && Some(t.world) == Compensate(s.world, c.compensation.value) && next == RolledBack
    case RolledBack => next == Replan
    case Replan => d.cycles == c.cycles + 1 && next == (if d.cycles >= 3 then Escalate else ProposeAction)
    case Escalate => next == End
    case Complete => next == End
    case End => false
  }

  /** The proposal, its check against the sweep, and its fingerprint if it passes. */
  ghost predicate Proposes(c: AgentState, o: Oracle, d: AgentState) {
    var action := o.tool + ":" + o.target;
    && d.action == Some(action) && d.params == o.params
    && c.observations.Some? && Parse(action).Some?
    && d.invalid == Validate(c.observations.value, Parse(action).value)
    && d.fingerprint == (if d.invalid.Some? then None else Fingerprint(c.observations.value, action))
    && (d.invalid.None? ==> d.fingerprint.Some?)
  }

  /** The decision, whoever gave it, and the edited action if there is one. */
  ghost predicate TakesDecision(c: AgentState, o: Oracle, d: AgentState) {
    && d.decision == Some(o.decision) && d.approver == o.approver
    && if o.edited.None? || o.edited == Some("") then d.action == c.action && d.fingerprint == c.fingerprint
       else d.action == o.edited && c.observations.Some? && d.fingerprint.Some?
            && d.fingerprint == Fingerprint(c.observations.value, o.edited.value)
  }

  function AfterDecision(revalidating: bool, decision: Decision): Node {
    match decision
    case Approved => if revalidating then Revalidate else PrepareExecution
    case Edited => if revalidating then Revalidate else PrepareExecution
    case Rejected => Replan
    case Timeout => Escalate
  }

  lemma UpdateHears(node: Node, s: AgentState, r: Reply)
    requires Update(node, s, r).Some?
    ensures OnlyWrites(node, s, Update(node, s, r).value) && Announces(node, s, Update(node, s, r).value)
  {
  }

  /** The sandbox and the ledger change in `execute` and `rolling_back` alone. */
  ghost predicate Leaves(node: Node, s: Sys, t: Sys) {
    && (node != Execute ==> t.ledger == s.ledger)
    && (node != Execute && node != RollingBack ==> t.world == s.world)
  }

  /** What a node run that comes through leaves, whatever the state it starts from: one record telling the commit, the
      channels of this node and no other, and in them what it was told. */
  lemma NodeHears(revalidating: bool, s: Sys, o: Oracle, timestamp: int)
    requires s.checkpoint.next != End && RunBody(s.checkpoint, s.world, s.ledger, o).Some?
    ensures var t := Step(revalidating, s, NodeRun(o, Survives, timestamp));
      var node := s.checkpoint.next;
      var f := Committed(node, s.checkpoint.state, t.checkpoint.state);
      && OnlyWrites(node, s.checkpoint.state, t.checkpoint.state)
      && Announces(node, s.checkpoint.state, t.checkpoint.state)
      && Heard(revalidating, s, o, t) && Leaves(node, s, t)
      && |t.log| == |s.log| + 1 && t.log[..|s.log|] == s.log
      && t.log[|s.log|].timestamp == timestamp && Tells(t.log[|s.log|], f)
      && t.history != [] && t.history[|t.history| - 1] == f
  {
    var node, c := s.checkpoint.next, s.checkpoint.state;
    var answer := Ask(node, c, s.world, s.ledger, o).value;
    var d := Update(node, c, answer.3).value;
    UpdateHears(node, c, answer.3);
    RecordTells(timestamp, node, c, d);
    NodeTakesOver(revalidating, s, o, timestamp);
  }

  lemma NodeTakesOver(revalidating: bool, s: Sys, o: Oracle, timestamp: int)
    requires s.checkpoint.next != End && RunBody(s.checkpoint, s.world, s.ledger, o).Some?
    ensures var t := Step(revalidating, s, NodeRun(o, Survives, timestamp));
      Heard(revalidating, s, o, t) && Leaves(s.checkpoint.next, s, t)
  {
  }

  /** A node run that dies leaves what the surviving one would have left up to that point: the sandbox from the act on,
      the ledger from the ledger write on, the log from the audit write on, and never the checkpoint. */
  lemma DeathLeaves(revalidating: bool, s: Sys, o: Oracle, crash: Crash, timestamp: int)
    requires s.checkpoint.next != End && crash != Survives
    ensures var t := Step(revalidating, s, NodeRun(o, Survives, timestamp));
      var d := Step(revalidating, s, NodeRun(o, crash, timestamp));
      && d.checkpoint == s.checkpoint
      && d.world == (if crash == BeforeEffect then s.world else t.world)
      && d.ledger == (if crash in {BeforeEffect, BeforeLedger} then s.ledger else t.ledger)
      && d.log == (if crash == BeforeCommit then t.log else s.log)
  {
    DeathOfBody(revalidating, s, RunBody(s.checkpoint, s.world, s.ledger, o), crash, timestamp);
  }

  lemma DeathOfBody(revalidating: bool, s: Sys, body: Option<Body>, crash: Crash, timestamp: int)
    requires crash != Survives
    ensures var t := AfterBody(revalidating, s, body, Survives, timestamp);
      var d := AfterBody(revalidating, s, body, crash, timestamp);
      && d.checkpoint == s.checkpoint
      && d.world == (if crash == BeforeEffect then s.world else t.world)
      && d.ledger == (if crash in {BeforeEffect, BeforeLedger} then s.ledger else t.ledger)
      && d.log == (if crash == BeforeCommit then t.log else s.log)
  {
  }

  // ---- When a node raises. ----

  /** The action can be fingerprinted on the sweep: a known tool, and for a service a view with what the tool reads. */
  ghost predicate Printable(o: Sweep, action: string) {
    && Parse(action).Some? && Parse(action).value.tool.Some?
    && var tool, x := Parse(action).value.tool.value, Parse(action).value.target;
    tool == Tool.DeleteRecords || (x in o.services && (tool == ClearCache ==> o.services[x].disk.Some?))
  }

  ghost predicate Stuck(s: Sys, o: Oracle) {
    var c, sweep := s.checkpoint.state, Gather(s.world);
    match s.checkpoint.next
    case Diagnose => sweep.None?
    case ProposeAction => c.observations.None?
    case ClassifyRisk => c.observations.None? || c.action.None? || ':' !in c.action.value
    case AwaitApproval =>
      && o.edited.Some? && o.edited != Some("")
      && (c.observations.None? || !Printable(c.observations.value, o.edited.value))
    case Revalidate => sweep.None? || c.action.None? || !Printable(sweep.value, c.action.value)
    case PrepareExecution => c.action.None?
    case Execute =>
      || c.action.None? || c.key.None?
      || ExecuteAction(s.world, s.ledger, c.action.value, c.params, c.key.value).None?
    case Verify => c.action.None? || c.result.None? || VerifyAction(s.world, c.action.value, c.result.value).None?
    case RollingBack => c.compensation.None? || Compensate(s.world, c.compensation.value).None?
    case _ => false
  }

  /** A node raises exactly where a lookup it relies on fails. */
  lemma RaisesExactly(s: Sys, o: Oracle)
    requires s.checkpoint.next != End
    ensures RunBody(s.checkpoint, s.world, s.ledger, o).None? <==> Stuck(s, o)
  {
    var c := s.checkpoint.state;
    if s.checkpoint.next == ProposeAction {
      assert Join(o.tool, o.target)[|o.tool|] == ':';
      SplitsExactly(Join(o.tool, o.target));
      ProposesUnlessBlind(c, o);
    } else if s.checkpoint.next == ClassifyRisk && c.action.Some? {
      SplitsExactly(c.action.value);
    } else if s.checkpoint.next == AwaitApproval && c.observations.Some? && o.edited.Some? {
      PrintsExactly(c.observations.value, o.edited.value);
    } else if s.checkpoint.next == Revalidate && c.action.Some? && Gather(s.world).Some? {
      PrintsExactly(Gather(s.world).value, c.action.value);
    }
  }

  lemma ProposesUnlessBlind(c: AgentState, o: Oracle)
    requires Parse(Join(o.tool, o.target)).Some?
    ensures OnPropose(c, o.tool, o.target, o.params).None? <==> c.observations.None?
  {
  }

  lemma PrintsExactly(o: Sweep, action: string)
    ensures Fingerprint(o, action).Some? <==> Printable(o, action)
  {
  }

  // ---- What decides over whole runs. ----

  /** In any run the classifier's low goes on to execution without a human exactly if the tool is neither delete nor
      rollback and the last sweep does not show the target alone and restarted; everything else waits. */
  lemma TierDecides(revalidating: bool, runId: string, s: Sys, events: seq<Event>, o: Oracle, timestamp: int)
    requires Fresh(s, runId) && Run(revalidating, s, events).checkpoint.next == ClassifyRisk
    ensures var m := Run(revalidating, s, events);
      var t := Step(revalidating, m, NodeRun(o, Survives, timestamp));
      && m.checkpoint.state.action.Some? && Parse(m.checkpoint.state.action.value).Some? && LastSweep(m.history).Some?
      && var parsed, sweep := Parse(m.checkpoint.state.action.value).value, LastSweep(m.history).value;
      && var x := parsed.target;
      && (t.checkpoint.next == PrepareExecution <==>
            && o.llm == LowRisk
            && parsed.tool != Some(Tool.DeleteRecords) && parsed.tool != Some(RollbackDeployment)
            && !(x in sweep.services && sweep.services[x].replicas < 2 && sweep.services[x].restarts >= 1))
      && t.checkpoint.next in {PrepareExecution, MarkAwaiting}
  {
    var m := Run(revalidating, s, events);
    EvidenceIsSound(revalidating, runId, s, events);
    var c := m.checkpoint.state;
    AnchoredParses(c);
    SplitsExactly(c.action.value);
    RaisesExactly(m, o);
    NodeTakesOver(revalidating, m, o, timestamp);
  }

  lemma AnchoredParses(c: AgentState)
    requires Evidence.Anchored(c)
    ensures Parse(c.action.value).Some? && Split(c.action.value).Some?
  {
  }

  /** In any run an approved action is dropped at revalidation exactly if its target no longer looks to the tool as in
      the run's last sweep. */
  lemma DriftDecides(revalidating: bool, runId: string, s: Sys, events: seq<Event>, o: Oracle, timestamp: int)
    requires Fresh(s, runId) && Run(revalidating, s, events).checkpoint.next == Revalidate
    requires var m := Run(revalidating, s, events); RunBody(m.checkpoint, m.world, m.ledger, o).Some?
    ensures var m := Run(revalidating, s, events);
      var t := Step(revalidating, m, NodeRun(o, Survives, timestamp));
      && m.checkpoint.state.action.Some? && LastSweep(m.history).Some? && Gather(m.world).Some?
      && DriftFound(LastSweep(m.history).value, Gather(m.world).value, m.checkpoint.state.action.value,
                    Some(t.checkpoint.next == Replan))
      && t.checkpoint.next in {Replan, PrepareExecution}
  {
    var m := Run(revalidating, s, events);
    EvidenceIsSound(revalidating, runId, s, events);
    NodeTakesOver(revalidating, m, o, timestamp);
    PrintsDecide(LastSweep(m.history).value, Gather(m.world).value, m.checkpoint.state.action.value);
  }

  /** A service action completes exactly if its target's metrics are below the thresholds when `verify` looks. */
  lemma VerdictDecides(revalidating: bool, s: Sys, o: Oracle, timestamp: int, tool: Tool, x: string)
    requires s.checkpoint.next == Verify && tool != Tool.DeleteRecords
    requires s.checkpoint.state.action == Some(Join(ToolName(tool), x)) && s.checkpoint.state.result.Some?
    requires x in s.world.services
    ensures var t, v := Step(revalidating, s, NodeRun(o, Survives, timestamp)), s.world.services[x];
      && (t.checkpoint.next == Complete <==>
            !v.down && v.errorRate < 0.1 && v.memory < 75.0 && v.cpu < 75.0 && (v.hasDisk ==> v.disk < 75.0))
      && t.checkpoint.next in {Complete, RollingBack}
  {
    ServiceVerdict(s.world, tool, x, s.checkpoint.state.result.value);
    RaisesExactly(s, o);
    NodeTakesOver(revalidating, s, o, timestamp);
  }
}
