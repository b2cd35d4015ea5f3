/** What the channels remember against what really happened: the replan reason, the thrashing floor and
    the drift check, over every run with any crashes, restarts and interference. */
module Evidence {
  import opened Options
  import opened Actions
  import opened Observations
  import opened Workflow
  import opened Durable
  import opened Readings

  /** The last committed run of one of `nodes`. */
  function LastCommit(h: seq<Fact>, nodes: set<Node>): Option<Fact> {
    if h == [] then None
    else
      var f := h[|h| - 1];
      if f.Committed? && f.node in nodes then Some(f) else LastCommit(h[..|h| - 1], nodes)
  }

  /** The same, looking no further back than the last proposal. */
  function CycleCommit(h: seq<Fact>, node: Node): Option<Fact> {
    var f := LastCommit(h, {node, ProposeAction});
    if f.Some? && f.value.Committed? && f.value.node == node then f else None
  }

  lemma LastAppend(h: seq<Fact>, f: Fact, nodes: set<Node>)
    ensures LastCommit(h + [f], nodes) == if f.Committed? && f.node in nodes then Some(f) else LastCommit(h, nodes)
    ensures LastCommit(h + [f], nodes).Some? ==>
      LastCommit(h + [f], nodes).value.Committed? && LastCommit(h + [f], nodes).value.node in nodes
  {
    assert (h + [f])[..|h|] == h;
    LastIsCommit(h, nodes);
  }

  lemma {:induction false} LastIsCommit(h: seq<Fact>, nodes: set<Node>)
    ensures LastCommit(h, nodes).Some? ==>
      LastCommit(h, nodes).value in h && LastCommit(h, nodes).value.Committed?
        && LastCommit(h, nodes).value.node in nodes
  {
    if h != [] {
      LastIsCommit(h[..|h| - 1], nodes);
    }
  }

  /** What happened, according to the observer: the last decision, the last drift verdict, the last sweep. */
  function LastDecision(h: seq<Fact>): Option<Decision> {
    var f := LastCommit(h, {AwaitApproval});
    if f.Some? && f.value.Committed? then f.value.after.decision else None
  }

  function LastDrift(h: seq<Fact>): Option<bool> {
    var f := LastCommit(h, {Revalidate});
    if f.Some? && f.value.Committed? then f.value.after.drift else None
  }

  function LastSweep(h: seq<Fact>): Option<Sweep> {
    var f := LastCommit(h, {Diagnose, Revalidate});
    if f.Some? && f.value.Committed? then f.value.after.observations else None
  }

  /** The last verdict of `verify`, and what the last `classify_risk` said: model's tier, final tier, floor. */
  function LastVerdict(h: seq<Fact>): Option<bool> {
    var f := LastCommit(h, {Verify});
    if f.Some? && f.value.Committed? then f.value.after.verified else None
  }

  function LastTiers(h: seq<Fact>): (Option<Tier>, Option<Tier>, bool) {
    var f := LastCommit(h, {ClassifyRisk});
    if f.Some? && f.value.Committed? then (f.value.after.llmTier, f.value.after.tier, f.value.after.floorApplied)
    else (None, None, false)
  }

  predicate DecidedThisCycle(h: seq<Fact>) { CycleCommit(h, AwaitApproval).Some? }

  // ---- The invariant on the channels. ----

  ghost predicate Favourable(s: AgentState) { s.decision == Some(Approved) || s.decision == Some(Edited) }

  ghost predicate Remembered(s: AgentState, h: seq<Fact>) {
    && s.decision == LastDecision(h)
    && s.drift == LastDrift(h)
    && s.observations == LastSweep(h)
    && s.verified == LastVerdict(h)
    && (s.llmTier, s.tier, s.floorApplied) == LastTiers(h)
  }

  /** The proposal is valid, and its fingerprint is that of the last sweep. */
  ghost predicate Anchored(s: AgentState) {
    && s.invalid.None? && s.action.Some? && s.observations.Some? && s.fingerprint.Some?
    && s.fingerprint == Fingerprint(s.observations.value, s.action.value)
  }

  /** On the way to execution: an approved action was found free of drift in this very cycle. */
  ghost predicate Underway(revalidating: bool, s: AgentState, decided: bool, revalidated: bool) {
    && s.invalid.None?
    && (decided ==> Favourable(s) && s.drift != Some(true) && (revalidating ==> revalidated && s.drift == Some(false)))
  }

  /** What the channels hold at each node, given what was committed since the last proposal. */
  ghost predicate Phase(revalidating: bool, c: Checkpoint, decided: bool, revalidated: bool) {
    var s := c.state;
    && (!revalidating ==> s.drift.None? && c.next != Revalidate)
    && match c.next
       case ClassifyRisk => Anchored(s) && !decided
       case MarkAwaiting => Anchored(s) && !decided
       case AwaitApproval => Anchored(s) && !decided && s.status == Some(AWAITING_APPROVAL)
       case Revalidate => Anchored(s) && decided && Favourable(s)
       case PrepareExecution => Underway(revalidating, s, decided, revalidated)
       case Execute => Underway(revalidating, s, decided, revalidated)
       case Verify => Underway(revalidating, s, decided, revalidated)
       case RollingBack => Underway(revalidating, s, decided, revalidated) && s.verified == Some(false)
       case RolledBack => Underway(revalidating, s, decided, revalidated) && s.verified == Some(false)
       case Replan =>
         (match s.status
          case Some(ACTION_PROPOSED) => s.invalid.Some?
          case Some(AWAITING_APPROVAL) => s.invalid.None? && s.decision == Some(Rejected)
          case Some(REVALIDATING) => s.invalid.None? && Favourable(s) && s.drift == Some(true)
          case Some(ROLLED_BACK) => Underway(revalidating, s, decided, revalidated) && s.verified == Some(false)
          case _ => false)
       case _ => true
  }

  ghost predicate Consistent(revalidating: bool, c: Checkpoint, h: seq<Fact>) {
    && Remembered(c.state, h)
    && Phase(revalidating, c, DecidedThisCycle(h), CycleCommit(h, Revalidate).Some?)
  }

  // ---- What every committed node run then satisfies. ----

  /** What really led to `replan`, read off the status before it. */
  function Cause(s: AgentState): Reason {
    match s.status
    case Some(ACTION_PROPOSED) => InvalidProposal
    case Some(AWAITING_APPROVAL) => HumanRejected
    case Some(REVALIDATING) => EnvironmentChanged
    case _ => VerificationFailed
  }

  /** A failed verification in a cycle without a decision, while an earlier cycle left a rejection or drift. */
  ghost predicate Misattributed(s: AgentState, h: seq<Fact>) {
    && Cause(s) == VerificationFailed
    && !DecidedThisCycle(h)
    && (LastDecision(h) == Some(Rejected) || LastDrift(h) == Some(true))
  }

  ghost predicate ReasonRight(f: Fact, h: seq<Fact>) {
    f.Committed? && f.node == Replan ==>
      (f.after.replanContext == Some(Cause(f.before)) <==> !Misattributed(f.before, h))
  }

  /** The tier the rules of the policy give: deletes and rollbacks are high; a model's low on a target with fewer than
      two replicas and a restart behind it is medium; otherwise the model's word stands. */
  ghost predicate TierByRule(parsed: Parsed, llm: Tier, o: Sweep, tier: Tier) {
    var x := parsed.target;
    tier ==
      if parsed.tool == Some(Tool.DeleteRecords) || parsed.tool == Some(RollbackDeployment) then HighRisk
      else if llm == LowRisk && x in o.services && o.services[x].replicas < 2 && o.services[x].restarts >= 1
      then MediumRisk
      else llm
  }

  /** Every classification follows the rules, on the sweep the run made last; the floor flag says just that the rule
      about lone, restarted targets raised a low. */
  ghost predicate TierBySweep(f: Fact, h: seq<Fact>) {
    f.Committed? && f.node == ClassifyRisk ==>
      && LastSweep(h).Some? && f.before.action.Some? && Parse(f.before.action.value).Some?
      && f.after.action == f.before.action && f.after.llmTier.Some? && f.after.tier.Some?
      && var o, parsed := LastSweep(h).value, Parse(f.before.action.value).value;
      && TierByRule(parsed, f.after.llmTier.value, o, f.after.tier.value)
      && (f.after.floorApplied <==>
            && f.after.llmTier == Some(LowRisk) && f.after.tier == Some(MediumRisk))
      && (parsed.tool.Some? && parsed.tool != Some(Tool.DeleteRecords) ==> parsed.target in o.services)
  }

  /** The verdict of `revalidate`: drift iff the fresh sweep differs from the one the fingerprint was
      taken from in a field the action depends on. */
  ghost predicate DriftExact(f: Fact, h: seq<Fact>) {
    f.Committed? && f.node == Revalidate ==>
      && LastSweep(h).Some? && f.before.action.Some? && f.after.observations.Some?
      && f.after.action == f.before.action
      && DriftFound(LastSweep(h).value, f.after.observations.value, f.before.action.value, f.after.drift)
  }

  ghost predicate DriftFound(before: Sweep, after: Sweep, action: string, drift: Option<bool>) {
    && Parse(action).Some? && Parse(action).value.tool.Some?
    && var tool, x := Parse(action).value.tool.value, Parse(action).value.target;
    && (tool == Tool.DeleteRecords || (x in before.services && x in after.services))
    && drift == Some(!SweepsAgree(before, after, tool, x))
  }

  /** An approved action is prepared for execution only after a clean revalidation of this cycle. */
  ghost predicate CleanBeforeExecution(revalidating: bool, f: Fact, h: seq<Fact>) {
    f.Committed? && f.node == PrepareExecution && revalidating && DecidedThisCycle(h) ==>
      CycleCommit(h, Revalidate).Some? && LastDrift(h) == Some(false)
  }

  ghost predicate Sound(revalidating: bool, f: Fact, h: seq<Fact>) {
    && ReasonRight(f, h)
    && TierBySweep(f, h)
    && DriftExact(f, h)
    && CleanBeforeExecution(revalidating, f, h)
  }

  ghost predicate AllSound(revalidating: bool, h: seq<Fact>) {
    forall i :: 0 <= i < |h| ==> Sound(revalidating, h[i], h[..i])
  }

  lemma CommitIsSound(revalidating: bool, node: Node, s: AgentState, r: Reply, h: seq<Fact>)
    requires Consistent(revalidating, Checkpoint(node, s), h)
    requires Update(node, s, r).Some?
    ensures Sound(revalidating, Committed(node, s, Update(node, s, r).value), h)
  {
    if node == ClassifyRisk {
      ClassifiedByRule(s, r);
    } else if node == Revalidate {
      PrintsDecide(LastSweep(h).value, r.sweep, s.action.value);
    }
  }

  lemma ClassifiedByRule(s: AgentState, r: Reply)
    requires Anchored(s) && Update(ClassifyRisk, s, r).Some?
    ensures var after := Update(ClassifyRisk, s, r).value;
      && Parse(s.action.value).Some? && after.action == s.action && after.llmTier.Some? && after.tier.Some?
      && var parsed := Parse(s.action.value).value;
      && TierByRule(parsed, after.llmTier.value, s.observations.value, after.tier.value)
      && (after.floorApplied <==> after.llmTier == Some(LowRisk) && after.tier == Some(MediumRisk))
      && (parsed.tool.Some? && parsed.tool != Some(Tool.DeleteRecords) ==>
            parsed.target in s.observations.value.services)
  {
  }

  lemma AppendAll(h: seq<Fact>, f: Fact)
    ensures LastDecision(h + [f]) ==
      if f.Committed? && f.node == AwaitApproval then f.after.decision else LastDecision(h)
    ensures LastDrift(h + [f]) == if f.Committed? && f.node == Revalidate then f.after.drift else LastDrift(h)
    ensures LastSweep(h + [f]) ==
      if f.Committed? && (f.node == Diagnose || f.node == Revalidate) then f.after.observations else LastSweep(h)
    ensures LastVerdict(h + [f]) == if f.Committed? && f.node == Verify then f.after.verified else LastVerdict(h)
    ensures LastTiers(h + [f]) ==
      if f.Committed? && f.node == ClassifyRisk then (f.after.llmTier, f.after.tier, f.after.floorApplied)
      else LastTiers(h)
    ensures DecidedThisCycle(h + [f]) <==>
      (f.Committed? && f.node == AwaitApproval) || (DecidedThisCycle(h) && !(f.Committed? && f.node == ProposeAction))
    ensures CycleCommit(h + [f], Revalidate).Some? <==>
      (f.Committed? && f.node == Revalidate) ||
      (CycleCommit(h, Revalidate).Some? && !(f.Committed? && f.node == ProposeAction))
  {
    LastAppend(h, f, {AwaitApproval});
    LastAppend(h, f, {Revalidate});
    LastAppend(h, f, {Diagnose, Revalidate});
    LastAppend(h, f, {Verify});
    LastAppend(h, f, {ClassifyRisk});
    LastAppend(h, f, {AwaitApproval, ProposeAction});
    LastAppend(h, f, {Revalidate, ProposeAction});
    LastIsCommit(h, {AwaitApproval, ProposeAction});
    LastIsCommit(h, {Revalidate, ProposeAction});
  }

  lemma CommitKeepsPhase(revalidating: bool, node: Node, s: AgentState, r: Reply, decided: bool, revalidated: bool)
    requires Phase(revalidating, Checkpoint(node, s), decided, revalidated)
    requires Update(node, s, r).Some?
    ensures var after := Update(node, s, r).value;
      Phase(revalidating, Checkpoint(Next(revalidating, node, after), after),
            node == AwaitApproval || (decided && node != ProposeAction),
            node == Revalidate || (revalidated && node != ProposeAction))
  {
  }

  /** Each remembered channel is touched by one kind of node, the sweep by two. */
  lemma CommitRemembers(node: Node, s: AgentState, r: Reply)
    requires Update(node, s, r).Some?
    ensures var after := Update(node, s, r).value;
      && (node != AwaitApproval ==> after.decision == s.decision)
      && (node != Revalidate ==> after.drift == s.drift)
      && (node != Diagnose && node != Revalidate ==> after.observations == s.observations)
      && (node != Verify ==> after.verified == s.verified)
      && (node != ClassifyRisk ==>
            after.llmTier == s.llmTier && after.tier == s.tier && after.floorApplied == s.floorApplied)
  {
  }

  lemma CommitKeepsConsistent(revalidating: bool, node: Node, s: AgentState, r: Reply, h: seq<Fact>)
    requires Consistent(revalidating, Checkpoint(node, s), h)
    requires Update(node, s, r).Some?
    ensures var after := Update(node, s, r).value;
      Consistent(revalidating, Checkpoint(Next(revalidating, node, after), after), h + [Committed(node, s, after)])
  {
    CommitKeepsPhase(revalidating, node, s, r, DecidedThisCycle(h), CycleCommit(h, Revalidate).Some?);
    CommitRemembers(node, s, r);
    AppendAll(h, Committed(node, s, Update(node, s, r).value));
  }

  lemma OtherKeepsConsistent(revalidating: bool, c: Checkpoint, h: seq<Fact>, f: Fact)
    requires Consistent(revalidating, c, h) && !f.Committed?
    ensures Consistent(revalidating, c, h + [f])
    ensures Consistent(revalidating, Checkpoint(Diagnose, c.state), h + [f])
  {
    AppendAll(h, f);
  }

  lemma SoundAppend(revalidating: bool, h: seq<Fact>, f: Fact)
    requires AllSound(revalidating, h) && Sound(revalidating, f, h)
    ensures AllSound(revalidating, h + [f])
  {
    var k := h + [f];
    forall i | 0 <= i < |k|
      ensures Sound(revalidating, k[i], k[..i])
    {
      assert k[..i] == h[..i];
      if i == |h| {
        assert h[..i] == h;
      }
    }
  }

  lemma {:induction false} FactsKeepConsistent(revalidating: bool, c: Checkpoint, h: seq<Fact>, g: seq<Fact>)
    requires Consistent(revalidating, c, h) && AllSound(revalidating, h)
    requires forall f | f in g :: !f.Committed?
    ensures Consistent(revalidating, c, h + g) && AllSound(revalidating, h + g)
  {
    if g == [] {
      assert h + g == h;
    } else {
      var n := |g| - 1;
      assert g[n] in g && forall f | f in g[..n] :: f in g;
      FactsKeepConsistent(revalidating, c, h, g[..n]);
      assert h + g == h + g[..n] + [g[n]];
      OtherKeepsConsistent(revalidating, c, h + g[..n], g[n]);
      SoundAppend(revalidating, h + g[..n], g[n]);
    }
  }

  lemma StepKeepsEvidence(revalidating: bool, s: Sys, e: Event)
    requires Consistent(revalidating, s.checkpoint, s.history) && AllSound(revalidating, s.history)
    ensures var t := Step(revalidating, s, e);
      Consistent(revalidating, t.checkpoint, t.history) && AllSound(revalidating, t.history)
  {
    var t, g := Step(revalidating, s, e), Added(revalidating, s, e);
    var reply := CheckpointStep(revalidating, s, e);
    var c, h := s.checkpoint, s.history;
    if t.checkpoint == c && forall f | f in g :: f.ToolCalled? || f.Died? {
      FactsKeepConsistent(revalidating, c, h, g);
    } else if e.StartAgain? {
      OtherKeepsConsistent(revalidating, c, h, StartedAgain);
      SoundAppend(revalidating, h, StartedAgain);
    } else {
      var n := |g| - 1;
      FactsKeepConsistent(revalidating, c, h, g[..n]);
      assert t.history == h + g[..n] + [g[n]];
      CommitIsSound(revalidating, c.next, c.state, reply, h + g[..n]);
      CommitKeepsConsistent(revalidating, c.next, c.state, reply, h + g[..n]);
      SoundAppend(revalidating, h + g[..n], g[n]);
    }
  }

  /** Over every run of a new thread: (1) the replan reason names the transition that caused the replan, in every
      case but one - a failed verification in a cycle without a decision while an earlier cycle left
      a rejection or drift behind - and in that case always names something else; (2) every tier
      is the one the policy's rules give for the model's tier and the last sweep; (3) `revalidate` reports
      drift exactly when a field the (possibly edited) action depends on differs between the fresh sweep and
      the one before; (4) in the revalidating graph an approved action is only prepared after a clean
      revalidation in its own cycle. And the channels hold the last decision, verdicts, tiers and sweep. */
  lemma {:induction false} EvidenceIsSound(revalidating: bool, runId: string, s: Sys, events: seq<Event>)
    requires Fresh(s, runId)
    ensures var t := Run(revalidating, s, events);
      AllSound(revalidating, t.history) && Remembered(t.checkpoint.state, t.history)
      && Consistent(revalidating, t.checkpoint, t.history)
  {
    if events != [] {
      var n := |events| - 1;
      EvidenceIsSound(revalidating, runId, s, events[..n]);
      StepKeepsEvidence(revalidating, Run(revalidating, s, events[..n]), events[n]);
    }
  }
}
