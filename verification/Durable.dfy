/** A durable run: the checkpoint, the world, the idempotency ledger and the audit log, driven by an
    arbitrary sequence of events. A process may die at any point of a node run; a node run that is not
    committed leaves the checkpoint alone (src/agent/graph.py, src/audit/hook.py, src/chaos/harness.py). */
module Durable {
  import opened Options
  import opened Tools
  import opened Observations
  import opened Workflow

  /** The last checkpoint: the node to run next and the channels. */
  datatype Checkpoint = Checkpoint(next: Node, state: AgentState)

  datatype Actor = AgentActor | HumanActor | SystemActor

  datatype LogRecord = LogRecord(
    timestamp: int, runId: string, from: Option<Status>, to: Option<Status>, actor: Actor, action: Option<string>,
    tier: Option<Tier>, key: Option<string>, approver: Option<string>, decision: Option<Decision>)

  /** Where the process dies during one node run, in the order the effects happen. */
  datatype Crash =
    | Survives
    | BeforeEffect
    | BeforeLedger   // after `perform()` or the compensation, before anything is recorded
    | BeforeAudit    // after the ledger write
    | BeforeCommit   // after the audit write

  /** The answers of reasoner, classifier and human to whichever node runs. */
  datatype Oracle = Oracle(
    summary: string, tool: string, target: string, params: Params, llm: Tier,
    decision: Decision, edited: Option<string>, approver: Option<string>)

  datatype Event =
    | NodeRun(oracle: Oracle, crash: Crash, timestamp: int)
    | StartAgain                                   // `start_workflow` on the existing thread
    | Elsewhere(world: World, entries: Ledger)     // other actors and other runs

  /** What an omniscient observer notes down; no step reads it. */
  datatype Fact =
    | ToolCalled(action: string, key: string, performed: bool, recorded: bool, entry: Entry)
    | Died(node: Node, logged: bool, changed: bool)
    | Committed(node: Node, before: AgentState, after: AgentState)
    | StartedAgain

  datatype Sys = Sys(
    checkpoint: Checkpoint, world: World, ledger: Ledger, log: seq<LogRecord>, history: seq<Fact>)

  /** The body of one node run: its effects in the sandbox, and the merged channels. */
  datatype Body = Body(world: World, ledger: Ledger, call: Option<Fact>, after: AgentState)

  /** The reply the sandbox and the oracles give to a node, with the effects of the tool calls in it. */
  function Ask(node: Node, s: AgentState, w: World, ledger: Ledger, o: Oracle)
    : Option<(World, Ledger, Option<Fact>, Reply)>
  {
    match node
    case Diagnose =>
      if Gather(w).Some? then Some((w, ledger, None, Diagnosed(Gather(w).value, o.summary))) else None
    case ProposeAction => Some((w, ledger, None, Proposed(o.tool, o.target, o.params)))
    case ClassifyRisk => Some((w, ledger, None, Classified(o.llm)))
    case AwaitApproval => Some((w, ledger, None, Decided(o.decision, o.edited, o.approver)))
    case Revalidate => if Gather(w).Some? then Some((w, ledger, None, Swept(Gather(w).value))) else None
    case Execute =>
      if s.action.None? || s.key.None? then None
      else (match ExecuteAction(w, ledger, s.action.value, s.params, s.key.value)
        case None => None
        case Some(out) =>
          Some((out.world, out.ledger,
                Some(ToolCalled(s.action.value, s.key.value, out.performed, true, out.entry)),
                Ran(out.entry.result, out.entry.compensation))))
    case Verify =>
      if s.action.None? || s.result.None? then None
      else (match VerifyAction(w, s.action.value, s.result.value)
        case None => None
        case Some(passed) => Some((w, ledger, None, Checked(passed))))
    case RollingBack =>
      if s.compensation.None? then None
      else (match Compensate(w, s.compensation.value)
        case None => None
        case Some(v) => Some((v, ledger, None, Nothing)))
    case End => None
    case _ => Some((w, ledger, None, Nothing))
  }

  function RunBody(c: Checkpoint, w: World, ledger: Ledger, o: Oracle): Option<Body> {
    match Ask(c.next, c.state, w, ledger, o)
    case None => None
    case Some(answer) =>
      match Update(c.next, c.state, answer.3)
      case None => None
      case Some(after) => Some(Body(answer.0, answer.1, answer.2, after))
  }

  function ActorOf(node: Node, after: AgentState): Actor {
    match node
    case AwaitApproval => if after.decision == Some(Timeout) then SystemActor else HumanActor
    case MarkAwaiting => SystemActor
    case RolledBack => SystemActor
    case Escalate => SystemActor
    case Complete => SystemActor
    case _ => AgentActor
  }

  /** The record `with_audit` writes: one-time events come from the update alone. */
  function MakeRecord(timestamp: int, node: Node, before: AgentState, after: AgentState): LogRecord {
    LogRecord(timestamp, after.runId, before.status, after.status, ActorOf(node, after), after.action,
              after.tier, after.key,
              if node == AwaitApproval then after.approver else None,
              if node == AwaitApproval then after.decision else None)
  }

  function CallFacts(call: Option<Fact>, recorded: bool): seq<Fact> {
    if call.Some? && call.value.ToolCalled? then [call.value.(recorded := recorded)] else []
  }

  /** What is left of a node run that got as far as `crash` lets it. */
  function AfterBody(revalidating: bool, s: Sys, body: Option<Body>, crash: Crash, timestamp: int): Sys {
    var node, before := s.checkpoint.next, s.checkpoint.state;
    match body
    case None => s.(history := s.history + [Died(node, false, false)])
    case Some(body) =>
      var changed := before.status != body.after.status;
      var logged := s.log + [MakeRecord(timestamp, node, before, body.after)];
      match crash
      case BeforeEffect => s.(history := s.history + [Died(node, false, changed)])
      case BeforeLedger =>
        s.(world := body.world, history := s.history + CallFacts(body.call, false) + [Died(node, false, changed)])
      case BeforeAudit =>
        s.(world := body.world, ledger := body.ledger,
           history := s.history + CallFacts(body.call, true) + [Died(node, false, changed)])
      case BeforeCommit =>
        s.(world := body.world, ledger := body.ledger, log := logged,
           history := s.history + CallFacts(body.call, true) + [Died(node, true, changed)])
      case Survives =>
        Sys(Checkpoint(Next(revalidating, node, body.after), body.after), body.world, body.ledger, logged,
            s.history + CallFacts(body.call, true) + [Committed(node, before, body.after)])
  }

  function RunNode(revalidating: bool, s: Sys, o: Oracle, crash: Crash, timestamp: int): Sys {
    if s.checkpoint.next == End then s
    else AfterBody(revalidating, s, RunBody(s.checkpoint, s.world, s.ledger, o), crash, timestamp)
  }

  function Step(revalidating: bool, s: Sys, e: Event): Sys {
    match e
    case NodeRun(o, crash, timestamp) => RunNode(revalidating, s, o, crash, timestamp)
    case StartAgain =>
      s.(checkpoint := Checkpoint(Diagnose, s.checkpoint.state), history := s.history + [StartedAgain])
    case Elsewhere(w, entries) => s.(world := w, ledger := entries + s.ledger)
  }

  function Run(revalidating: bool, s: Sys, events: seq<Event>): Sys {
    if events == [] then s
    else Step(revalidating, Run(revalidating, s, events[..|events| - 1]), events[|events| - 1])
  }

  /** A new run: nothing logged or noted yet, the next node is `diagnose`. */
  ghost predicate Fresh(s: Sys, runId: string) {
    && s.checkpoint == Checkpoint(Diagnose, NewThread(runId))
    && s.log == []
    && s.history == []
  }

  /** The facts a node run adds to the history. */
  ghost function FactsOf(c: Checkpoint, body: Option<Body>, crash: Crash): seq<Fact> {
    match body
    case None => [Died(c.next, false, false)]
    case Some(body) =>
      var changed := c.state.status != body.after.status;
      if crash == BeforeEffect then [Died(c.next, false, changed)]
      else
        CallFacts(body.call, crash != BeforeLedger) +
        [if crash == Survives then Committed(c.next, c.state, body.after)
         else Died(c.next, crash == BeforeCommit, changed)]
  }

  /** The facts a step adds to the history. */
  ghost function Added(revalidating: bool, s: Sys, e: Event): (g: seq<Fact>)
    ensures Step(revalidating, s, e).history == s.history + g
  {
    if e.NodeRun? && s.checkpoint.next != End then
      var body := RunBody(s.checkpoint, s.world, s.ledger, e.oracle);
      BodyAdds(revalidating, s, body, e.crash, e.timestamp);
      FactsOf(s.checkpoint, body, e.crash)
    else if e.StartAgain? then [StartedAgain]
    else []
  }

  lemma BodyAdds(revalidating: bool, s: Sys, body: Option<Body>, crash: Crash, timestamp: int)
    ensures AfterBody(revalidating, s, body, crash, timestamp).history == s.history + FactsOf(s.checkpoint, body, crash)
  {
  }

  /** Only `execute` and `rolling_back` touch the sandbox, and only `execute` calls a tool. */
  lemma ReadOnlyBody(c: Checkpoint, w: World, ledger: Ledger, o: Oracle)
    requires c.next != Execute && RunBody(c, w, ledger, o).Some?
    ensures var body := RunBody(c, w, ledger, o).value;
      body.ledger == ledger && body.call.None? && (c.next != RollingBack ==> body.world == w)
  {
  }

  // ---- Counting facts. ----

  function Count<T>(h: seq<T>, p: T -> bool): nat {
    if h == [] then 0 else Count(h[..|h| - 1], p) + (if p(h[|h| - 1]) then 1 else 0)
  }

  lemma {:induction false} CountAppend<T>(h: seq<T>, g: seq<T>, p: T -> bool)
    ensures Count(h + g, p) == Count(h, p) + Count(g, p)
  {
    if g == [] {
      assert h + g == h;
    } else {
      CountAppend(h, g[..|g| - 1], p);
      assert (h + g)[..|h + g| - 1] == h + g[..|g| - 1];
    }
  }

  lemma CountOne<T>(h: seq<T>, x: T, p: T -> bool)
    ensures Count(h + [x], p) == Count(h, p) + (if p(x) then 1 else 0)
  {
    assert (h + [x])[..|h|] == h;
  }

  /** A step keeps the checkpoint, restarts it, or commits one node update. */
  lemma CheckpointStep(revalidating: bool, s: Sys, e: Event) returns (reply: Reply)
    ensures var c, t := s.checkpoint, Step(revalidating, s, e);
      var g := Added(revalidating, s, e);
      || (t.checkpoint == c && (forall f | f in g :: f.ToolCalled? || f.Died?))
      || (e.StartAgain? && t.checkpoint == Checkpoint(Diagnose, c.state) && g == [StartedAgain])
      || (e.NodeRun? && e.crash == Survives && c.next != End
          && Update(c.next, c.state, reply).Some?
          && var after := Update(c.next, c.state, reply).value;
            && t.checkpoint == Checkpoint(Next(revalidating, c.next, after), after)
            && g != [] && g[|g| - 1] == Committed(c.next, c.state, after)
            && (forall f | f in g[..|g| - 1] :: f.ToolCalled?))
  {
    reply := Nothing;
    if e.NodeRun? {
      match Ask(s.checkpoint.next, s.checkpoint.state, s.world, s.ledger, e.oracle)
      case None =>
      case Some(answer) => reply := answer.3;
    }
  }

  lemma RunSnoc(revalidating: bool, s: Sys, events: seq<Event>, e: Event)
    ensures Run(revalidating, s, events + [e]) == Step(revalidating, Run(revalidating, s, events), e)
  {
    assert (events + [e])[..|events|] == events;
  }

  lemma {:induction false} RunConcat(revalidating: bool, s: Sys, a: seq<Event>, b: seq<Event>)
    ensures Run(revalidating, s, a + b) == Run(revalidating, Run(revalidating, s, a), b)
  {
    if b == [] {
      assert a + b == a;
    } else {
      var n := |b| - 1;
      RunConcat(revalidating, s, a, b[..n]);
      assert (a + b)[..|a + b| - 1] == a + b[..n];
    }
  }
}
