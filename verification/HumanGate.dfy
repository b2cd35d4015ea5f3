/** The approval gate over whole runs: no action is executed without a low policy tier or a human
    decision for that very action in the same proposal cycle. */
module HumanGate {
  import opened Options
  import opened Actions
  import opened Observations
  import opened Workflow
  import opened Durable

  predicate IsProposal(f: Fact) { f.Committed? && f.node == ProposeAction }

  /** The model called this action low in `classify_risk`, and the policy left it at that. */
  predicate ClassifiedLow(f: Fact, a: string) {
    && f.Committed? && f.node == ClassifyRisk && f.after.action == Some(a)
    && f.after.llmTier == Some(LowRisk) && f.after.tier == Some(LowRisk)
  }

  /** A decision approved this action, or edited the proposal into it. */
  predicate HumanApproved(f: Fact, a: string) {
    && f.Committed? && f.node == AwaitApproval && f.after.action == Some(a)
    && (f.after.decision == Some(Approved) || f.after.decision == Some(Edited))
  }

  /** Since the last committed proposal in `h`, something let `a` pass (`human`: a decision did). */
  predicate Passed(h: seq<Fact>, a: string, human: bool) {
    if h == [] || IsProposal(h[|h| - 1]) then false
    else
      || HumanApproved(h[|h| - 1], a)
      || (!human && ClassifiedLow(h[|h| - 1], a))
      || Passed(h[..|h| - 1], a, human)
  }

  lemma PassedAppend(h: seq<Fact>, f: Fact, a: string, human: bool)
    ensures Passed(h + [f], a, human) <==>
      !IsProposal(f) && (HumanApproved(f, a) || (!human && ClassifiedLow(f, a)) || Passed(h, a, human))
  {
    assert (h + [f])[..|h|] == h;
  }

  lemma {:induction false} HumanIsEnough(h: seq<Fact>, a: string)
    requires Passed(h, a, true)
    ensures Passed(h, a, false)
  {
    if !HumanApproved(h[|h| - 1], a) {
      HumanIsEnough(h[..|h| - 1], a);
    }
  }

  /** A delete, or the rollback of a deployment. */
  predicate Forced(a: string) {
    Parse(a).Some? && (Parse(a).value.tool == Some(DeleteRecords) || Parse(a).value.tool == Some(RollbackDeployment))
  }

  /** Every tool call in `h` had been let through, and by a human if its tool is forced high. */
  ghost predicate Gated(h: seq<Fact>) {
    forall i :: 0 <= i < |h| && h[i].ToolCalled? ==>
      Passed(h[..i], h[i].action, false) && (Forced(h[i].action) ==> Passed(h[..i], h[i].action, true))
  }

  ghost predicate AtGate(c: Checkpoint, h: seq<Fact>) {
    match c.next
    case Revalidate => c.state.action.Some? && Passed(h, c.state.action.value, true)
    case PrepareExecution => Cleared(c.state, h)
    case Execute => Cleared(c.state, h)
    case _ => true
  }

  ghost predicate Cleared(s: AgentState, h: seq<Fact>) {
    && s.action.Some? && Passed(h, s.action.value, false)
    && (Forced(s.action.value) ==> Passed(h, s.action.value, true))
  }

  lemma Keep(h: seq<Fact>, f: Fact, c: Checkpoint)
    requires AtGate(c, h) && !f.Committed?
    ensures AtGate(c, h + [f])
  {
    if c.state.action.Some? {
      PassedAppend(h, f, c.state.action.value, true);
      PassedAppend(h, f, c.state.action.value, false);
    }
  }

  /** Committing a node moves the checkpoint to a node whose gate condition holds. */
  lemma CommitKeepsGate(revalidating: bool, node: Node, s: AgentState, r: Reply, h: seq<Fact>)
    requires AtGate(Checkpoint(node, s), h)
    requires Update(node, s, r).Some?
    requires node == AwaitApproval ==> s.action.Some?
    ensures var after := Update(node, s, r).value;
      AtGate(Checkpoint(Next(revalidating, node, after), after), h + [Committed(node, s, after)])
  {
    var after := Update(node, s, r).value;
    var f := Committed(node, s, after);
    if after.action.Some? {
      var a := after.action.value;
      PassedAppend(h, f, a, true);
      PassedAppend(h, f, a, false);
      if Passed(h + [f], a, true) {
        HumanIsEnough(h + [f], a);
      }
    }
  }

  ghost predicate GateInv(s: Sys) {
    && Gated(s.history)
    && AtGate(s.checkpoint, s.history)
    && (s.checkpoint.next in {ClassifyRisk, MarkAwaiting, AwaitApproval} ==> s.checkpoint.state.action.Some?)
  }

  lemma GatedAppend(h: seq<Fact>, f: Fact)
    requires Gated(h)
    requires f.ToolCalled? ==> Passed(h, f.action, false) && (Forced(f.action) ==> Passed(h, f.action, true))
    ensures Gated(h + [f])
  {
    var k := h + [f];
    forall i | 0 <= i < |k| && k[i].ToolCalled?
      ensures Passed(k[..i], k[i].action, false) && (Forced(k[i].action) ==> Passed(k[..i], k[i].action, true))
    {
      assert k[..i] == h[..i];
      if i == |h| {
        assert h[..i] == h;
      }
    }
  }

  lemma StepKeepsGate(revalidating: bool, s: Sys, e: Event)
    requires GateInv(s)
    ensures GateInv(Step(revalidating, s, e))
  {
    var t, g := Step(revalidating, s, e), Added(revalidating, s, e);
    var reply := CheckpointStep(revalidating, s, e);
    FactShape(revalidating, s, e);
    if |g| == 2 {
      CallKeepsGate(s, g[0]);
      LastKeepsGate(revalidating, s.(history := s.history + [g[0]]), t, g[1], reply);
    } else if |g| == 1 {
      LastKeepsGate(revalidating, s, t, g[0], reply);
    } else {
      assert t.history == s.history;
    }
  }

  lemma CallKeepsGate(s: Sys, f: Fact)
    requires GateInv(s)
    requires f.ToolCalled? && s.checkpoint.next == Execute && s.checkpoint.state.action == Some(f.action)
    ensures GateInv(s.(history := s.history + [f]))
  {
    GatedAppend(s.history, f);
    Keep(s.history, f, s.checkpoint);
  }

  /** The last fact of a step: the node committed, or it did not and the checkpoint is as before or restarted. */
  lemma LastKeepsGate(revalidating: bool, s: Sys, t: Sys, f: Fact, reply: Reply)
    requires GateInv(s) && t.history == s.history + [f] && !f.ToolCalled?
    requires if f.Committed? then
               && Update(s.checkpoint.next, s.checkpoint.state, reply).Some?
               && var after := Update(s.checkpoint.next, s.checkpoint.state, reply).value;
               f == Committed(s.checkpoint.next, s.checkpoint.state, after)
               && t.checkpoint == Checkpoint(Next(revalidating, s.checkpoint.next, after), after)
             else t.checkpoint == s.checkpoint || t.checkpoint == Checkpoint(Diagnose, s.checkpoint.state)
    ensures GateInv(t)
  {
    GatedAppend(s.history, f);
    if f.Committed? {
      CommitKeepsGate(revalidating, s.checkpoint.next, s.checkpoint.state, reply, s.history);
    } else {
      Keep(s.history, f, s.checkpoint);
    }
  }

  lemma FactShape(revalidating: bool, s: Sys, e: Event)
    ensures var g := Added(revalidating, s, e);
      && |g| <= 2
      && (|g| == 2 ==>
            g[0].ToolCalled? && s.checkpoint.next == Execute && s.checkpoint.state.action == Some(g[0].action))
      && (|g| > 0 ==> !g[|g| - 1].ToolCalled?)
  {
  }

  lemma {:induction false} RunKeepsGate(revalidating: bool, s: Sys, events: seq<Event>)
    requires GateInv(s)
    ensures GateInv(Run(revalidating, s, events))
  {
    if events != [] {
      var n := |events| - 1;
      RunKeepsGate(revalidating, s, events[..n]);
      StepKeepsGate(revalidating, Run(revalidating, s, events[..n]), events[n]);
    }
  }

  /** In both graphs and under every pattern of crashes, restarts and interference, each tool call
      follows, in its own proposal cycle, either the model's own low for that very action, left at low by the
      policy, or a human decision in favour of it; a delete or a deployment rollback always follows a human
      decision. */
  lemma NoExecutionWithoutClearance(revalidating: bool, runId: string, s: Sys, events: seq<Event>)
    requires Fresh(s, runId)
    ensures Gated(Run(revalidating, s, events).history)
  {
    RunKeepsGate(revalidating, s, events);
  }
}
