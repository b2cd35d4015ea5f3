/** The graph of src/agent/graph.py and the nodes and routes of src/agent/nodes.py. A node takes the
    persisted channels and a reply (what the outside world answered while it ran) to new channels. */
module Workflow {
  import opened Options
  import opened Actions
  import opened Tools
  import opened Observations

  const MAX_REPLAN_CYCLES: int := 3

  datatype Status =
    | DIAGNOSING | ACTION_PROPOSED | RISK_CLASSIFIED | AWAITING_APPROVAL | REVALIDATING | REPLANNING
    | EXECUTING | VERIFYING | ROLLING_BACK | ROLLED_BACK | ESCALATED | COMPLETED

  datatype Decision = Approved | Edited | Rejected | Timeout

  /** The five texts `_replan_reason` can produce. */
  datatype Reason = InvalidProposal | HumanRejected | EnvironmentChanged | VerificationFailed | DidNotResolve

  datatype Node =
    | Diagnose | ProposeAction | ClassifyRisk | MarkAwaiting | AwaitApproval | Revalidate | PrepareExecution
    | Execute | Verify | RollingBack | RolledBack | Replan | Escalate | Complete
    | End

  datatype AgentState = AgentState(
    runId: string,
    status: Option<Status>,
    observations: Option<Sweep>,
    diagnosis: Option<string>,
    action: Option<string>,
    params: Params,
    fingerprint: Option<Fields>,
    invalid: Option<InvalidReason>,
    llmTier: Option<Tier>,
    tier: Option<Tier>,
    floorApplied: bool,
    decision: Option<Decision>,
    approver: Option<string>,
    drift: Option<bool>,
    key: Option<string>,
    result: Option<Result>,
    verified: Option<bool>,
    compensation: Option<Compensation>,
    cycles: int,
    replanContext: Option<Reason>,
    finalState: Option<Status>)

  const NO_PARAMS: Params := Params(Missing, Missing, Missing, Missing)

  /** The channels of a thread that only holds its run id. */
  function NewThread(runId: string): AgentState {
    AgentState(runId, None, None, None, None, NO_PARAMS, None, None, None, None, false, None, None, None, None,
               None, None, None, 0, None, None)
  }

  /** What a node body receives from reasoner, classifier, human, sandbox and tools. */
  datatype Reply =
    | Nothing
    | Diagnosed(sweep: Sweep, summary: string)
    | Proposed(tool: string, target: string, params: Params)
    | Classified(llm: Tier)
    | Decided(decision: Decision, edited: Option<string>, approver: Option<string>)
    | Swept(sweep: Sweep)
    | Ran(result: Result, compensation: Compensation)
    | Checked(passed: bool)

  function OnDiagnose(s: AgentState, sweep: Sweep, summary: string): AgentState {
    s.(status := Some(DIAGNOSING), observations := Some(sweep), diagnosis := Some(summary))
  }

  function OnPropose(s: AgentState, tool: string, target: string, params: Params): Option<AgentState> {
    var action := Join(tool, target);
    if s.observations.None? || Parse(action).None? then None
    else
      var invalid := Validate(s.observations.value, Parse(action).value);
      var fingerprint := if invalid.Some? then None else Fingerprint(s.observations.value, action);
      Some(s.(status := Some(ACTION_PROPOSED), action := Some(action), params := params,
              fingerprint := fingerprint, invalid := invalid))
  }

  function OnClassify(s: AgentState, llm: Tier): Option<AgentState> {
    if s.observations.None? || s.action.None? || Parse(s.action.value).None? then None
    else
      var parsed := Parse(s.action.value).value;
      var situational := Situational(s.observations.value, parsed);
      var tier := ApplyPolicy(parsed.tool, llm, situational);
      Some(s.(status := Some(RISK_CLASSIFIED), llmTier := Some(llm), tier := Some(tier),
              floorApplied := llm == LowRisk && tier == MediumRisk && situational.Some?
                              && situational.value.0 < MIN_REDUNDANT_REPLICAS))
  }

  /** An edit re-anchors the fingerprint to the proposal-time sweep; one that cannot be fingerprinted raises. */
  function OnDecision(s: AgentState, decision: Decision, edited: Option<string>, approver: Option<string>)
    : Option<AgentState>
  {
    var t := s.(decision := Some(decision), approver := approver);
    if edited.None? || edited.value == "" then Some(t)
    else if s.observations.None? then None
    else match Fingerprint(s.observations.value, edited.value)
      case None => None
      case Some(f) => Some(t.(action := edited, fingerprint := Some(f)))
  }

  function OnRevalidate(s: AgentState, sweep: Sweep): Option<AgentState> {
    if s.action.None? then None
    else match Fingerprint(sweep, s.action.value)
      case None => None
      case Some(f) =>
        Some(s.(status := Some(REVALIDATING), observations := Some(sweep), fingerprint := Some(f),
                drift := Some(s.fingerprint != Some(f))))
  }

  function OnPrepare(s: AgentState): Option<AgentState> {
    if s.action.None? then None
    else Some(s.(status := Some(EXECUTING), key := Some(Key(s.runId, s.action.value))))
  }

  function ReplanReason(s: AgentState): Reason {
    if s.invalid.Some? then InvalidProposal
    else if s.decision == Some(Rejected) then HumanRejected
    else if s.drift == Some(true) then EnvironmentChanged
    else if s.verified == Some(false) then VerificationFailed
    else DidNotResolve
  }

  /** The update of one node merged into the channels; `None` if the node raises (or awaits another reply). */
  function Update(node: Node, s: AgentState, r: Reply): Option<AgentState> {
    match node
    case Diagnose => if r.Diagnosed? then Some(OnDiagnose(s, r.sweep, r.summary)) else None
    case ProposeAction => if r.Proposed? then OnPropose(s, r.tool, r.target, r.params) else None
    case ClassifyRisk => if r.Classified? then OnClassify(s, r.llm) else None
    case MarkAwaiting => Some(s.(status := Some(AWAITING_APPROVAL)))
    case AwaitApproval => if r.Decided? then OnDecision(s, r.decision, r.edited, r.approver) else None
    case Revalidate => if r.Swept? then OnRevalidate(s, r.sweep) else None
    case PrepareExecution => OnPrepare(s)
    case Execute =>
      if r.Ran? then
        Some(s.(status := Some(EXECUTING), result := Some(r.result), compensation := Some(r.compensation)))
      else None
    case Verify => if r.Checked? then Some(s.(status := Some(VERIFYING), verified := Some(r.passed))) else None
    case RollingBack => Some(s.(status := Some(ROLLING_BACK)))
    case RolledBack => Some(s.(status := Some(ROLLED_BACK)))
    case Replan =>
      Some(s.(status := Some(REPLANNING), cycles := s.cycles + 1, replanContext := Some(ReplanReason(s))))
    case Escalate => Some(s.(status := Some(ESCALATED), finalState := Some(ESCALATED)))
    case Complete => Some(s.(status := Some(COMPLETED), finalState := Some(COMPLETED)))
    case End => None
  }

  /** The edges; `revalidating` is false for the graph built without the `revalidate` node. */
  function Next(revalidating: bool, node: Node, s: AgentState): Node {
    match node
    case Diagnose => ProposeAction
    case ProposeAction => if s.invalid.Some? then Replan else ClassifyRisk
    case ClassifyRisk => if s.tier == Some(LowRisk) then PrepareExecution else MarkAwaiting
    case MarkAwaiting => AwaitApproval
    case AwaitApproval =>
      if s.decision == Some(Approved) || s.decision == Some(Edited) then
        if revalidating then Revalidate else PrepareExecution
      else if s.decision == Some(Rejected) then Replan
      else Escalate
    case Revalidate => if s.drift == Some(true) then Replan else PrepareExecution
    case PrepareExecution => Execute
    case Execute => Verify
    case Verify => if s.verified == Some(true) then Complete else RollingBack
    case RollingBack => RolledBack
    case RolledBack => Replan
    case Replan => if s.cycles >= MAX_REPLAN_CYCLES then Escalate else ProposeAction
    case Escalate => End
    case Complete => End
    case End => End
  }
}
