/** How long a run can last (src/agent/graph.py, src/agent/state.py): every committed node run uses up
    part of a budget fixed by the replan counter. */
module Termination {
  import opened Workflow
  import opened Durable

  /** Replans still to come before the counter reaches its limit. */
  function CyclesLeft(cycles: int): nat { if cycles < MAX_REPLAN_CYCLES then MAX_REPLAN_CYCLES - cycles else 1 }

  /** The most nodes that may still commit from this checkpoint, not counting approvals to come. */
  function Budget(c: Checkpoint): nat {
    var later := 8 * (CyclesLeft(c.state.cycles) - 1) + 1;
    match c.next
    case Diagnose => 9 + later
    case ProposeAction => 8 + later
    case ClassifyRisk => 7 + later
    case MarkAwaiting => 6 + later
    case AwaitApproval => 8 + later
    case Revalidate => 7 + later
    case PrepareExecution => 6 + later
    case Execute => 5 + later
    case Verify => 4 + later
    case RollingBack => 3 + later
    case RolledBack => 2 + later
    case Replan => 1 + later
    case Escalate => 1
    case Complete => 1
    case End => 0
  }

  /** Every commit uses up budget; only going to sleep for an approval gives some back (at most two). */
  lemma CommitUsesBudget(revalidating: bool, node: Node, s: AgentState, r: Reply)
    requires Update(node, s, r).Some?
    ensures var after := Update(node, s, r).value;
      Budget(Checkpoint(Next(revalidating, node, after), after)) + 1
        <= Budget(Checkpoint(node, s)) + (if node == MarkAwaiting then 3 else 0)
  {
  }

  function Commits(h: seq<Fact>): nat { Count(h, (f: Fact) => f.Committed?) }

  function CommitsOf(h: seq<Fact>, node: Node): nat { Count(h, (f: Fact) => f.Committed? && f.node == node) }

  /** A proposal has been made since the last replan. */
  predicate InCycle(node: Node) {
    node !in {Diagnose, ProposeAction}
  }

  ghost predicate WithinBounds(s: Sys) {
    var c, h := s.checkpoint, s.history;
    && Commits(h) + Budget(c) <= 26 + 3 * CommitsOf(h, MarkAwaiting)
    && c.state.cycles == CommitsOf(h, Replan) <= 3 == MAX_REPLAN_CYCLES
    && (c.state.cycles == MAX_REPLAN_CYCLES ==> c.next == Escalate || c.next == End)
    && CommitsOf(h, ProposeAction) <= c.state.cycles
      + (if InCycle(c.next) && c.state.cycles < MAX_REPLAN_CYCLES then 1 else 0)
    && CommitsOf(h, MarkAwaiting) <= CommitsOf(h, ProposeAction)
         - (if c.next in {ClassifyRisk, MarkAwaiting} then 1 else 0)
    && CommitsOf(h, Execute) <= CommitsOf(h, ProposeAction)
         - (if c.next in {ClassifyRisk, MarkAwaiting, AwaitApproval, Revalidate, PrepareExecution, Execute}
             then 1 else 0)
  }

  lemma {:induction false} CallsDontCount(h: seq<Fact>, g: seq<Fact>, p: Fact -> bool)
    requires forall f | f in g :: !p(f)
    ensures Count(h + g, p) == Count(h, p)
  {
    if g == [] {
      assert h + g == h;
    } else {
      var n := |g| - 1;
      assert g[n] in g && forall f | f in g[..n] :: f in g;
      CallsDontCount(h, g[..n], p);
      assert (h + g)[..|h + g| - 1] == h + g[..n];
    }
  }

  lemma CountsOfFacts(h: seq<Fact>, g: seq<Fact>)
    requires forall f | f in g :: !f.Committed?
    ensures Commits(h + g) == Commits(h)
    ensures forall node :: CommitsOf(h + g, node) == CommitsOf(h, node)
  {
    CallsDontCount(h, g, (f: Fact) => f.Committed?);
    forall node
      ensures CommitsOf(h + g, node) == CommitsOf(h, node)
    {
      CallsDontCount(h, g, (f: Fact) => f.Committed? && f.node == node);
    }
  }

  lemma CountsOfCommit(h: seq<Fact>, f: Fact)
    requires f.Committed?
    ensures Commits(h + [f]) == Commits(h) + 1
    ensures forall node :: CommitsOf(h + [f], node) == CommitsOf(h, node) + (if f.node == node then 1 else 0)
  {
    CountOne(h, f, (g: Fact) => g.Committed?);
    forall node
      ensures CommitsOf(h + [f], node) == CommitsOf(h, node) + (if f.node == node then 1 else 0)
    {
      CountOne(h, f, (g: Fact) => g.Committed? && g.node == node);
    }
  }

  lemma CommitKeepsBounds(revalidating: bool, s: Sys, t: Sys, reply: Reply)
    requires WithinBounds(s)
    requires Update(s.checkpoint.next, s.checkpoint.state, reply).Some?
    requires var after := Update(s.checkpoint.next, s.checkpoint.state, reply).value;
      && t.checkpoint == Checkpoint(Next(revalidating, s.checkpoint.next, after), after)
      && Commits(t.history) == Commits(s.history) + 1
      && forall node ::
           CommitsOf(t.history, node) == CommitsOf(s.history, node) + (if s.checkpoint.next == node then 1 else 0)
    ensures WithinBounds(t)
  {
    CommitUsesBudget(revalidating, s.checkpoint.next, s.checkpoint.state, reply);
  }

  lemma StepKeepsBounds(revalidating: bool, s: Sys, e: Event)
    requires WithinBounds(s) && !e.StartAgain?
    ensures WithinBounds(Step(revalidating, s, e))
  {
    var t, g := Step(revalidating, s, e), Added(revalidating, s, e);
    var reply := CheckpointStep(revalidating, s, e);
    if t.checkpoint == s.checkpoint && forall f | f in g :: f.ToolCalled? || f.Died? {
      QuietKeepsBounds(s, t, g);
    } else {
      LastCommitKeepsBounds(revalidating, s, t, g, reply);
    }
  }

  lemma QuietKeepsBounds(s: Sys, t: Sys, g: seq<Fact>)
    requires WithinBounds(s) && t.checkpoint == s.checkpoint && t.history == s.history + g
    requires forall f | f in g :: f.ToolCalled? || f.Died?
    ensures WithinBounds(t)
  {
    CountsOfFacts(s.history, g);
  }

  lemma LastCommitKeepsBounds(revalidating: bool, s: Sys, t: Sys, g: seq<Fact>, reply: Reply)
    requires WithinBounds(s) && t.history == s.history + g && g != []
    requires Update(s.checkpoint.next, s.checkpoint.state, reply).Some?
    requires var after := Update(s.checkpoint.next, s.checkpoint.state, reply).value;
      && t.checkpoint == Checkpoint(Next(revalidating, s.checkpoint.next, after), after)
      && g[|g| - 1] == Committed(s.checkpoint.next, s.checkpoint.state, after)
    requires forall f | f in g[..|g| - 1] :: f.ToolCalled?
    ensures WithinBounds(t)
  {
    var n := |g| - 1;
    forall f | f in g[..n]
      ensures !f.Committed?
    {
      assert f.ToolCalled?;
    }
    CountsOfFacts(s.history, g[..n]);
    CountsOfCommit(s.history + g[..n], g[n]);
    assert t.history == s.history + g[..n] + [g[n]];
    CommitKeepsBounds(revalidating, s, t, reply);
  }

  lemma BoundsMeanShort(t: Sys)
    requires WithinBounds(t)
    ensures CommitsOf(t.history, ProposeAction) <= 3 && CommitsOf(t.history, Execute) <= 3
      && CommitsOf(t.history, MarkAwaiting) <= 3
    ensures Commits(t.history) <= 26 + 3 * CommitsOf(t.history, MarkAwaiting) <= 35
    ensures Commits(t.history) == 26 + 3 * CommitsOf(t.history, MarkAwaiting) ==> t.checkpoint.next == End
  {
  }

  lemma {:induction false} RunKeepsBounds(revalidating: bool, runId: string, s: Sys, events: seq<Event>)
    requires Fresh(s, runId)
    requires forall e | e in events :: !e.StartAgain?
    ensures WithinBounds(Run(revalidating, s, events))
  {
    if events != [] {
      var n := |events| - 1;
      assert events[n] in events && forall e | e in events[..n] :: e in events;
      RunKeepsBounds(revalidating, runId, s, events[..n]);
      StepKeepsBounds(revalidating, Run(revalidating, s, events[..n]), events[n]);
    }
  }

  /** Tight bounds: a run that is never started again - crashed and continued or not - commits at most three
      proposals, three executions, three replans - which the channels count - and 26 nodes plus three for every time it
      goes to sleep for an approval: at most 35 in all, 26 if it never sleeps. With the budget used up it has ended. */
  lemma RunsAreShort(revalidating: bool, runId: string, s: Sys, events: seq<Event>)
    requires Fresh(s, runId)
    requires forall e | e in events :: !e.StartAgain?
    ensures var t := Run(revalidating, s, events);
      && WithinBounds(t)
      && CommitsOf(t.history, ProposeAction) <= 3
      && CommitsOf(t.history, Execute) <= 3
      && CommitsOf(t.history, MarkAwaiting) <= 3
      && t.checkpoint.state.cycles == CommitsOf(t.history, Replan) <= 3
      && Commits(t.history) <= 26 + 3 * CommitsOf(t.history, MarkAwaiting) <= 35
      && (Commits(t.history) == 26 + 3 * CommitsOf(t.history, MarkAwaiting) ==> t.checkpoint.next == End)
  {
    RunKeepsBounds(revalidating, runId, s, events);
    BoundsMeanShort(Run(revalidating, s, events));
  }
}
