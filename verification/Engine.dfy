/** One thread of the compiled graph as the object that drives it: the persisted checkpoint, the tool context
    and the audit store, changed node by node (src/agent/graph.py, src/audit/hook.py). Every call is proved to
    be a run of module Durable. */
module Engine {
  import opened Options
  import opened Tools
  import opened ToolContexts
  import opened Observations
  import opened Workflow
  import opened Durable
  import opened AuditStores
  import opened Termination

  /** How `ainvoke` comes back: an exception, the approval interrupt, or a final state. */
  datatype Invocation = Raised | Suspended | Finished

  /** The answers reasoner, classifier and human give to successive node runs, and the clock. */
  type Answers = nat -> (Oracle, int)

  function NodeRunAt(answers: Answers, i: nat): Event { NodeRun(answers(i).0, Survives, answers(i).1) }

  function NodeRuns(answers: Answers, from: nat, k: nat): (events: seq<Event>)
    ensures |events| == k
  {
    if k == 0 then [] else NodeRuns(answers, from, k - 1) + [NodeRunAt(answers, from + k - 1)]
  }

  /** Waiting in `await_approval`, or over. */
  predicate AtRest(node: Node) { node == AwaitApproval || node == End }

  /** The most node runs left until the next rest. */
  function Fuel(c: Checkpoint): nat { if AtRest(c.next) then 0 else Budget(c) }

  /** Nodes before the next sleep of the same proposal cycle. */
  predicate BeforeSleep(node: Node) { node in {Diagnose, ProposeAction, ClassifyRisk, MarkAwaiting, AwaitApproval} }

  /** Past the sleep of cycle `n`: either executing or in a later cycle. */
  predicate Past(c: Checkpoint, n: int) {
    c.state.cycles >= n && (BeforeSleep(c.next) ==> c.state.cycles > n)
  }

  lemma NodeRunStays(revalidating: bool, node: Node, s: AgentState, r: Reply)
    requires Update(node, s, r).Some?
    ensures var after := Update(node, s, r).value;
      var c, d := Checkpoint(node, s), Checkpoint(Next(revalidating, node, after), after);
      && after.runId == s.runId && Settled(d)
      && (node == AwaitApproval ==> Past(d, s.cycles))
      && (forall n :: Past(c, n) ==> Past(d, n))
  {
  }

  /** The next node would raise. */
  ghost predicate Raises(s: Sys, o: Oracle) { RunBody(s.checkpoint, s.world, s.ledger, o).None? }

  lemma SurvivingStep(revalidating: bool, s: Sys, o: Oracle, timestamp: int, reply: Reply, w: World, ledger: Ledger,
      call: Option<Fact>)
    requires s.checkpoint.next != End
    requires Ask(s.checkpoint.next, s.checkpoint.state, s.world, s.ledger, o) == Some((w, ledger, call, reply))
    requires Update(s.checkpoint.next, s.checkpoint.state, reply).Some?
    ensures !Raises(s, o)
    ensures var node, before := s.checkpoint.next, s.checkpoint.state;
      var after := Update(node, before, reply).value;
      RunNode(revalidating, s, o, Survives, timestamp) ==
        Sys(Checkpoint(Next(revalidating, node, after), after), w, ledger,
            s.log + [MakeRecord(timestamp, node, before, after)],
            s.history + CallFacts(call, true) + [Committed(node, before, after)])
  {
  }

  /** A node raises before it has changed anything. */
  lemma RaisingStep(revalidating: bool, s: Sys, o: Oracle, timestamp: int, reply: Option<Reply>, w: World,
      ledger: Ledger, call: Option<Fact>)
    requires s.checkpoint.next != End
    requires var asked := Ask(s.checkpoint.next, s.checkpoint.state, s.world, s.ledger, o);
      if reply.None? then asked.None? && w == s.world && ledger == s.ledger
      else
        && asked == Some((w, ledger, call, reply.value))
        && Update(s.checkpoint.next, s.checkpoint.state, reply.value).None?
    ensures Raises(s, o) && w == s.world && ledger == s.ledger
    ensures RunNode(revalidating, s, o, Survives, timestamp) ==
      s.(history := s.history + [Died(s.checkpoint.next, false, false)])
  {
  }

  /** What a surviving node run keeps, and that it uses up budget. */
  lemma NodeRunProgress(revalidating: bool, s: Sys, o: Oracle, timestamp: int)
    requires !Raises(s, o) && s.checkpoint.next != End
    ensures var c, d := s.checkpoint, RunNode(revalidating, s, o, Survives, timestamp).checkpoint;
      && (c.next == AwaitApproval ==> Past(d, c.state.cycles))
      && (forall n :: Past(c, n) ==> Past(d, n))
      && (c.next != AwaitApproval ==> Fuel(d) < Fuel(c))
  {
    var reply := Ask(s.checkpoint.next, s.checkpoint.state, s.world, s.ledger, o).value.3;
    CommitUsesBudget(revalidating, s.checkpoint.next, s.checkpoint.state, reply);
    NodeRunStays(revalidating, s.checkpoint.next, s.checkpoint.state, reply);
  }

  /** `t` is where `k` node runs from `s` lead. */
  ghost predicate Reached(revalidating: bool, s: Sys, answers: Answers, from: nat, k: nat, t: Sys) {
    t == Run(revalidating, s, NodeRuns(answers, from, k))
  }

  /** The last of the `k` node runs raised. */
  ghost predicate RaisedLast(revalidating: bool, s: Sys, answers: Answers, from: nat, k: nat) {
    k > 0 && Raises(Run(revalidating, s, NodeRuns(answers, from, k - 1)), answers(from + k - 1).0)
  }

  lemma RaisedNow(revalidating: bool, s: Sys, answers: Answers, from: nat, k: nat, m: Sys)
    requires Reached(revalidating, s, answers, from, k, m)
    ensures RaisedLast(revalidating, s, answers, from, k + 1) <==> Raises(m, answers(from + k).0)
  {
  }

  /** `k` node runs lead from `s` to `t`, the last of which raised if and only if `raised`. */
  ghost predicate Driven(revalidating: bool, s: Sys, answers: Answers, k: nat, t: Sys, raised: bool) {
    Reached(revalidating, s, answers, 0, k, t) && (raised <==> RaisedLast(revalidating, s, answers, 0, k))
  }

  /** One stretch of surviving node runs between two rests: no approval is consumed in it, the first node
      alone may be `revalidate`, and what `NodeRunStays` states holds from end to end. */
  ghost predicate Stretch(s: Sys, t: Sys) {
    && (forall n :: Past(s.checkpoint, n) ==> Past(t.checkpoint, n))
    && s.history <= t.history
    && (t.history != s.history ==> t.checkpoint.next != Revalidate)
    && (t.history == s.history ==> t.checkpoint == s.checkpoint)
    && (s.checkpoint.next == Revalidate && t.history != s.history ==>
          t.history[|s.history|].Committed? && t.history[|s.history|].node == Revalidate)
    && (forall i | |s.history| <= i < |t.history| && t.history[i].Committed? ::
          t.history[i].node != AwaitApproval &&
          (t.history[i].node == Revalidate ==> i == |s.history| && s.checkpoint.next == Revalidate))
  }

  lemma NoRunsYet(revalidating: bool, s: Sys, answers: Answers, from: nat)
    ensures Reached(revalidating, s, answers, from, 0, s) && Stretch(s, s)
  {
  }

  lemma OneMore(revalidating: bool, s: Sys, answers: Answers, from: nat, k: nat, m: Sys, t: Sys)
    requires Reached(revalidating, s, answers, from, k, m)
    requires t == RunNode(revalidating, m, answers(from + k).0, Survives, answers(from + k).1)
    ensures Reached(revalidating, s, answers, from, k + 1, t)
  {
    RunSnoc(revalidating, s, NodeRuns(answers, from, k), NodeRunAt(answers, from + k));
  }

  /** What a surviving node run adds to the history. */
  lemma NodeRunAdds(revalidating: bool, s: Sys, o: Oracle, timestamp: int) returns (calls: seq<Fact>, f: Fact)
    requires !Raises(s, o) && s.checkpoint.next != End
    ensures RunNode(revalidating, s, o, Survives, timestamp).history == s.history + calls + [f]
    ensures f.Committed? && f.node == s.checkpoint.next
    ensures forall g | g in calls :: g.ToolCalled?
    ensures s.checkpoint.next != Execute ==> calls == []
    ensures s.checkpoint.next != AwaitApproval ==>
      RunNode(revalidating, s, o, Survives, timestamp).checkpoint.next != Revalidate
  {
    var body := RunBody(s.checkpoint, s.world, s.ledger, o).value;
    calls, f := CallFacts(body.call, true), Committed(s.checkpoint.next, s.checkpoint.state, body.after);
  }

  lemma StretchOn(revalidating: bool, s: Sys, m: Sys, o: Oracle, timestamp: int, t: Sys)
    requires Stretch(s, m) && !Raises(m, o) && !AtRest(m.checkpoint.next)
    requires t == RunNode(revalidating, m, o, Survives, timestamp)
    ensures Stretch(s, t)
  {
    NodeRunProgress(revalidating, m, o, timestamp);
    var calls, f := NodeRunAdds(revalidating, m, o, timestamp);
    StretchAdds(s, m, t, calls, f);
  }

  lemma StretchAdds(s: Sys, m: Sys, t: Sys, calls: seq<Fact>, f: Fact)
    requires Stretch(s, m) && !AtRest(m.checkpoint.next)
    requires t.history == m.history + calls + [f] && f.Committed? && f.node == m.checkpoint.next
    requires forall g | g in calls :: g.ToolCalled?
    requires m.checkpoint.next != Execute ==> calls == []
    requires t.checkpoint.next != Revalidate
    requires forall n :: Past(m.checkpoint, n) ==> Past(t.checkpoint, n)
    ensures Stretch(s, t)
  {
    forall i | |m.history| <= i < |t.history| - 1
      ensures t.history[i].ToolCalled?
    {
      assert t.history[i] == calls[i - |m.history|] && calls[i - |m.history|] in calls;
    }
    assert forall i :: 0 <= i < |m.history| ==> t.history[i] == m.history[i];
    assert s.history <= t.history;
    if m.history != s.history {
      assert t.history[|s.history|] == m.history[|s.history|];
    }
  }

  /** A thread at rest shows it in its status. */
  predicate Settled(c: Checkpoint) {
    && (c.next == AwaitApproval ==> c.state.status == Some(AWAITING_APPROVAL))
    && (c.next == End ==>
          c.state.finalState == c.state.status
            && (c.state.status == Some(COMPLETED) || c.state.status == Some(ESCALATED)))
  }

  /** Suspended with status AWAITING_APPROVAL, or over with one of the two final states. */
  predicate Rested(how: Invocation, c: Checkpoint) {
    match how
    case Raised => false
    case Suspended => c.next == AwaitApproval && c.state.status == Some(AWAITING_APPROVAL)
    case Finished => c.next == End && (c.state.status == Some(COMPLETED) || c.state.status == Some(ESCALATED))
  }

  /** What consuming a decision leads to. */
  ghost predicate Decides(revalidating: bool, s: Sys, o: Oracle, t: Sys) {
    && |t.history| == |s.history| + 1 && s.history <= t.history
    && var f := t.history[|s.history|];
    && f.Committed? && f.node == AwaitApproval && f.after == t.checkpoint.state
    && t.checkpoint.state.decision == Some(o.decision)
    && t.checkpoint.next == Next(revalidating, AwaitApproval, t.checkpoint.state)
    && Past(t.checkpoint, s.checkpoint.state.cycles)
  }

  lemma DecisionTaken(revalidating: bool, s: Sys, o: Oracle, timestamp: int)
    requires !Raises(s, o) && s.checkpoint.next == AwaitApproval
    ensures Decides(revalidating, s, o, RunNode(revalidating, s, o, Survives, timestamp))
  {
    NodeRunProgress(revalidating, s, o, timestamp);
  }

  /** The sandbox's part of a node run, as `Ask` states it. */
  ghost predicate Heard(
    c: Checkpoint, w: World, ledger: Ledger, o: Oracle, w2: World, ledger2: Ledger, call: Option<Fact>,
    reply: Option<Reply>)
  {
    var asked := Ask(c.next, c.state, w, ledger, o);
    if reply.None? then asked.None? && w2 == w && ledger2 == ledger
    else asked == Some((w2, ledger2, call, reply.value))
  }

  class GraphThread {
    const runId: string
    const revalidating: bool
    const context: ToolContext
    const audit: InMemoryAuditStore
    var checkpoint: Checkpoint
    ghost var history: seq<Fact>

    ghost predicate Valid()
      reads this
    {
      && context.Valid()
      && checkpoint.state.runId == runId
      && Settled(checkpoint)
    }

    ghost function Sandbox(): set<object> { {context.store, context.records, audit} + context.Services() }

    ghost function TheSys(): Sys
      reads this, Sandbox()
    {
      Sys(checkpoint, context.TheWorld(), context.store.rows, OfRun(audit.records, runId), history)
    }

    /** What the system is depends on the thread and its sandbox only. */
    twostate lemma Untouched()
      requires unchanged(this) && forall o | o in Sandbox() :: unchanged(o)
      ensures TheSys() == old(TheSys())
    {
    }

    constructor (runId: string, revalidating: bool, context: ToolContext, audit: InMemoryAuditStore)
      requires context.Valid()
      ensures Valid() && this.runId == runId && this.revalidating == revalidating
      ensures this.context == context && this.audit == audit
      ensures checkpoint == Checkpoint(Diagnose, NewThread(runId)) && history == []
    {
      this.runId, this.revalidating, this.context, this.audit := runId, revalidating, context, audit;
      checkpoint, history := Checkpoint(Diagnose, NewThread(runId)), [];
    }

    /** What a node body asks of the sandbox; `None` where it raises. */
    method Consult(o: Oracle) returns (reply: Option<Reply>, ghost call: Option<Fact>)
      requires Valid()
      modifies context.store, context.records, context.Services()
      ensures Heard(checkpoint, old(context.TheWorld()), old(context.store.rows), o,
                    context.TheWorld(), context.store.rows, call, reply)
    {
      if checkpoint.next == Execute {
        reply, call := ConsultTool(o);
        return;
      }
      call := None;
      if checkpoint.next == RollingBack {
        reply := ConsultCompensation(o);
      } else {
        reply := ConsultReadOnly(o);
      }
    }

    method ConsultTool(o: Oracle) returns (reply: Option<Reply>, ghost call: Option<Fact>)
      requires Valid() && checkpoint.next == Execute
      modifies context.store, context.records, context.Services()
      ensures Heard(checkpoint, old(context.TheWorld()), old(context.store.rows), o,
                    context.TheWorld(), context.store.rows, call, reply)
    {
      var s := checkpoint.state;
      if s.action.None? || s.key.None? {
        return None, None;
      }
      var outcome := context.Execute(s.action.value, s.params, s.key.value);
      if outcome.None? {
        return None, None;
      }
      call := Some(ToolCalled(s.action.value, s.key.value, outcome.value.1, true, outcome.value.0));
      reply := Some(Ran(outcome.value.0.result, outcome.value.0.compensation));
    }

    method ConsultCompensation(o: Oracle) returns (reply: Option<Reply>)
      requires Valid() && checkpoint.next == RollingBack
      modifies context.records, context.Services()
      ensures Heard(checkpoint, old(context.TheWorld()), context.store.rows, o,
                    context.TheWorld(), context.store.rows, None, reply)
    {
      if checkpoint.state.compensation.None? {
        return None;
      }
      var ok := context.Undo(checkpoint.state.compensation.value);
      reply := if ok then Some(Nothing) else None;
    }

    /** The other nodes leave the sandbox alone. */
    method ConsultReadOnly(o: Oracle) returns (reply: Option<Reply>)
      requires Valid() && checkpoint.next != Execute && checkpoint.next != RollingBack
      ensures Heard(checkpoint, context.TheWorld(), context.store.rows, o, context.TheWorld(), context.store.rows,
          None, reply)
    {
      reply := None;
      var s := checkpoint.state;
      match checkpoint.next {
        case Diagnose =>
          var sweep := GatherObservations(context);
          if sweep.Some? {
            reply := Some(Diagnosed(sweep.value, o.summary));
          }
        case ProposeAction => reply := Some(Proposed(o.tool, o.target, o.params));
        case ClassifyRisk => reply := Some(Classified(o.llm));
        case AwaitApproval => reply := Some(Decided(o.decision, o.edited, o.approver));
        case Revalidate =>
          var sweep := GatherObservations(context);
          if sweep.Some? {
            reply := Some(Swept(sweep.value));
          }
        case Verify =>
          if s.action.Some? && s.result.Some? {
            var passed := context.Verify(s.action.value, s.result.value);
            if passed.Some? {
              reply := Some(Checked(passed.value));
            }
          }
        case End =>
        case _ => reply := Some(Nothing);
      }
    }

    /** The audit record, then the checkpoint. */
    method Commit(after: AgentState, ghost call: Option<Fact>, timestamp: int)
      requires Valid() && after.runId == runId
      requires Settled(Checkpoint(Next(revalidating, checkpoint.next, after), after))
      modifies this, audit
      ensures Valid()
      ensures var s, node, before := old(TheSys()), old(checkpoint.next), old(checkpoint.state);
        TheSys() == Sys(Checkpoint(Next(revalidating, node, after), after), s.world, s.ledger,
                        s.log + [MakeRecord(timestamp, node, before, after)],
                        s.history + CallFacts(call, true) + [Committed(node, before, after)])
      ensures forall r | r != runId :: OfRun(audit.records, r) == OfRun(old(audit.records), r)
    {
      var node, before := checkpoint.next, checkpoint.state;
      audit.Record(MakeRecord(timestamp, node, before, after));
      checkpoint := Checkpoint(Next(revalidating, node, after), after);
      history := history + CallFacts(call, true) + [Committed(node, before, after)];
      context.SameWorld();
    }

    /** One surviving run of the next node: its effects, the audit record, then the commit. */
    method RunOnce(o: Oracle, timestamp: int) returns (raised: bool)
      requires Valid() && checkpoint.next != End
      modifies this, audit, context.store, context.records, context.Services()
      ensures Valid()
      ensures TheSys() == RunNode(revalidating, old(TheSys()), o, Survives, timestamp)
      ensures raised <==> Raises(old(TheSys()), o)
      ensures forall r | r != runId :: OfRun(audit.records, r) == OfRun(old(audit.records), r)
    {
      ghost var s := TheSys();
      var node, before := checkpoint.next, checkpoint.state;
      var reply;
      ghost var call;
      reply, call := Consult(o);
      if reply.None? || Update(node, before, reply.value).None? {
        RaisingStep(revalidating, s, o, timestamp, reply, context.TheWorld(), context.store.rows, call);
        history := history + [Died(node, false, false)];
        return true;
      }
      var after := Update(node, before, reply.value).value;
      NodeRunStays(revalidating, node, before, reply.value);
      SurvivingStep(revalidating, s, o, timestamp, reply.value, context.TheWorld(), context.store.rows, call);
      Commit(after, call, timestamp);
      raised := false;
    }

    /** One node run of a drive that began at `start`. */
    method DriveOnce(answers: Answers, from: nat, ghost start: Sys, k: nat) returns (raised: bool)
      requires Valid() && !AtRest(checkpoint.next)
      requires Reached(revalidating, start, answers, from, k, TheSys()) && Stretch(start, TheSys())
      modifies this, audit, context.store, context.records, context.Services()
      ensures Valid()
      ensures Reached(revalidating, start, answers, from, k + 1, TheSys())
      ensures raised <==> RaisedLast(revalidating, start, answers, from, k + 1)
      ensures !raised ==> Stretch(start, TheSys())
      ensures !raised ==> Fuel(checkpoint) < old(Fuel(checkpoint))
      ensures forall r | r != runId :: OfRun(audit.records, r) == OfRun(old(audit.records), r)
    {
      ghost var s := TheSys();
      raised := RunOnce(answers(from + k).0, answers(from + k).1);
      OneMore(revalidating, start, answers, from, k, s, TheSys());
      RaisedNow(revalidating, start, answers, from, k, s);
      if !raised {
        NodeRunProgress(revalidating, s, answers(from + k).0, answers(from + k).1);
        StretchOn(revalidating, start, s, answers(from + k).0, answers(from + k).1, TheSys());
      }
    }

    /** Drives the thread until it raises, comes to rest in `await_approval`, or ends. */
    method Drive(answers: Answers, from: nat) returns (how: Invocation, k: nat)
      requires Valid()
      modifies this, audit, context.store, context.records, context.Services()
      ensures Valid()
      ensures Reached(revalidating, old(TheSys()), answers, from, k, TheSys())
      ensures how == Raised <==> RaisedLast(revalidating, old(TheSys()), answers, from, k)
      ensures how != Raised ==> Rested(how, checkpoint) && Stretch(old(TheSys()), TheSys())
      ensures forall r | r != runId :: OfRun(audit.records, r) == OfRun(old(audit.records), r)
    {
      k := 0;
      ghost var start := TheSys();
      NoRunsYet(revalidating, start, answers, from);
      while !AtRest(checkpoint.next)
        invariant Valid()
        invariant Reached(revalidating, start, answers, from, k, TheSys()) && Stretch(start, TheSys())
        invariant !RaisedLast(revalidating, start, answers, from, k)
        invariant forall r | r != runId :: OfRun(audit.records, r) == OfRun(old(audit.records), r)
        decreases Fuel(checkpoint)
      {
        var raised := DriveOnce(answers, from, start, k);
        k := k + 1;
        if raised {
          return Raised, k;
        }
      }
      how := if checkpoint.next == End then Finished else Suspended;
    }

    /** The same call, for a caller who only needs to know that it comes to rest. */
    method DriveToRest(answers: Answers) returns (how: Invocation, ghost k: nat)
      requires Valid()
      modifies this, audit, context.store, context.records, context.Services()
      ensures Valid() && (how != Raised ==> AtRest(checkpoint.next))
      ensures Driven(revalidating, old(TheSys()), answers, k, TheSys(), how == Raised)
    {
      how, k := Drive(answers, 0);
    }

    /** `start_workflow` on a thread that already has a checkpoint: back to START, the channels kept. */
    method StartAgain()
      requires Valid()
      modifies this
      ensures Valid()
      ensures TheSys() == Step(revalidating, old(TheSys()), Event.StartAgain)
    {
      checkpoint := Checkpoint(Diagnose, checkpoint.state);
      history := history + [StartedAgain];
    }

    /** The node run that consumes the decision. */
    method TakeDecision(o: Oracle, timestamp: int) returns (raised: bool)
      requires Valid() && checkpoint.next == AwaitApproval
      modifies this, audit, context.store, context.records, context.Services()
      ensures Valid()
      ensures TheSys() == RunNode(revalidating, old(TheSys()), o, Survives, timestamp)
      ensures raised <==> Raises(old(TheSys()), o)
      ensures !raised ==> Decides(revalidating, old(TheSys()), o, TheSys())
      ensures forall r | r != runId :: OfRun(audit.records, r) == OfRun(old(audit.records), r)
    {
      ghost var s := TheSys();
      raised := RunOnce(o, timestamp);
      if !raised {
        DecisionTaken(revalidating, s, o, timestamp);
      }
    }

    /** `resume_workflow`: the first answer holds the decision; `decided` is where it led. */
    method Resume(answers: Answers, from: nat) returns (how: Invocation, k: nat, ghost decided: Sys)
      requires Valid() && checkpoint.next == AwaitApproval
      modifies this, audit, context.store, context.records, context.Services()
      ensures Valid()
      ensures Reached(revalidating, old(TheSys()), answers, from, k, TheSys())
      ensures how == Raised <==> RaisedLast(revalidating, old(TheSys()), answers, from, k)
      ensures how != Raised ==>
        && Rested(how, checkpoint)
        && Decides(revalidating, old(TheSys()), answers(from).0, decided)
        && Stretch(decided, TheSys())
      ensures forall r | r != runId :: OfRun(audit.records, r) == OfRun(old(audit.records), r)
    {
      ghost var s := TheSys();
      var raised := TakeDecision(answers(from).0, answers(from).1);
      decided := TheSys();
      FirstRun(revalidating, s, answers, from, decided);
      if raised {
        return Raised, 1, decided;
      }
      how, k := Drive(answers, from + 1);
      JoinRuns(revalidating, s, answers, from, decided, k, TheSys());
      JoinRaised(revalidating, s, answers, from, decided, k);
      k := k + 1;
    }

    method ResumeToRest(answers: Answers) returns (how: Invocation, ghost k: nat)
      requires Valid() && checkpoint.next == AwaitApproval
      modifies this, audit, context.store, context.records, context.Services()
      ensures Valid() && (how != Raised ==> AtRest(checkpoint.next))
      ensures Driven(revalidating, old(TheSys()), answers, k, TheSys(), how == Raised)
    {
      ghost var decided;
      how, k, decided := Resume(answers, 0);
    }
  }

  lemma FirstRun(revalidating: bool, s: Sys, answers: Answers, from: nat, m: Sys)
    requires m == RunNode(revalidating, s, answers(from).0, Survives, answers(from).1)
    ensures Reached(revalidating, s, answers, from, 1, m)
  {
    NoRunsYet(revalidating, s, answers, from);
    OneMore(revalidating, s, answers, from, 0, s, m);
  }

  lemma JoinRuns(revalidating: bool, s: Sys, answers: Answers, from: nat, m: Sys, k: nat, t: Sys)
    requires Reached(revalidating, s, answers, from, 1, m) && Reached(revalidating, m, answers, from + 1, k, t)
    ensures Reached(revalidating, s, answers, from, k + 1, t)
  {
    JoinEvents(answers, from, 1, k);
    RunConcat(revalidating, s, NodeRuns(answers, from, 1), NodeRuns(answers, from + 1, k));
  }

  lemma JoinRaised(revalidating: bool, s: Sys, answers: Answers, from: nat, m: Sys, k: nat)
    requires Reached(revalidating, s, answers, from, 1, m) && !Raises(s, answers(from).0)
    ensures RaisedLast(revalidating, s, answers, from, k + 1) <==> RaisedLast(revalidating, m, answers, from + 1, k)
  {
    if k == 0 {
      assert NodeRuns(answers, from, 0) == [];
    } else {
      JoinRuns(revalidating, s, answers, from, m, k - 1, Run(revalidating, m, NodeRuns(answers, from + 1, k - 1)));
    }
  }

  lemma {:induction false} JoinEvents(answers: Answers, from: nat, j: nat, k: nat)
    ensures NodeRuns(answers, from, j) + NodeRuns(answers, from + j, k) == NodeRuns(answers, from, j + k)
  {
    if k > 0 {
      JoinEvents(answers, from, j, k - 1);
    }
  }
}
