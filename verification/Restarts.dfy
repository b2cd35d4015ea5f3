/** When a new start from START (src/chaos/harness.py, src/agent/graph.py) is harmless. */
module Restarts {
  import opened Options
  import opened Tools
  import opened Observations
  import opened Workflow
  import opened Durable
  import opened Conservation
  import opened Witnesses

  /** After a start from START at `m`, the quiet and never restarted `more` escalates away from `core`. */
  ghost predicate EscalatesElsewhere(revalidating: bool, m: Sys, more: seq<Event>, core: Core) {
    var again := Step(revalidating, m, StartAgain);
    var t := Run(revalidating, again, more);
    && Quiet(revalidating, again, more) && NeverRestarted(more)
    && LossesHarmless(revalidating, again, more)
    && t.checkpoint.next == End && t.checkpoint.state.status == Some(ESCALATED)
    && CoreOf(t.world) != core
  }

  lemma AtStartCannotEscalateElsewhere(revalidating: bool, m: Sys, more: seq<Event>, core: Core)
    requires Undoable(m, core) && CoreOf(m.world) == core
    ensures !EscalatesElsewhere(revalidating, m, more, core)
  {
    if EscalatesElsewhere(revalidating, m, more, core) {
      var again := Step(revalidating, m, StartAgain);
      NeverIsSafe(revalidating, again, more, core);
      RunKeepsUndoable(revalidating, again, more, core);
    }
  }

  lemma NoneEscalatesElsewhere(revalidating: bool, m: Sys, core: Core)
    requires Undoable(m, core) && CoreOf(m.world) == core
    ensures forall more :: !EscalatesElsewhere(revalidating, m, more, core)
  {
    forall more
      ensures !EscalatesElsewhere(revalidating, m, more, core)
    {
      AtStartCannotEscalateElsewhere(revalidating, m, more, core);
    }
  }

  /** From anywhere, with whatever replan counter, a restart can escalate with the world as it finds it. */
  lemma RestartCanGiveUp(revalidating: bool, m: Sys, core: Core) returns (more: seq<Event>)
    requires Gather(m.world).Some? && CoreOf(m.world) != core
    ensures EscalatesElsewhere(revalidating, m, more, core)
  {
    var o := Oracle("", "", "", NO_PARAMS, LowRisk, Approved, None, None);
    var again := Step(revalidating, m, StartAgain);
    var events, t, k := DiagnosedAndGivenUp(revalidating, again, o);
    NodeRunsAreQuiet(revalidating, again, [], events);
    WithoutLossesHarmless(revalidating, again, events);
    assert [] + events == events;
    more := events;
  }

  /** The exact condition. At any point of a run whose earlier restarts and lost writes were harmless, while the
      sandbox can still be swept: a start from START can make the run escalate with the durable world changed
      if and only if running the undo that checkpoint and ledger show as pending would change the
      durable world there, or fails - that is, if and only if the world is not the start's. Nothing is
      pending wherever `RestartSafe`. */
  lemma RestartExactly(revalidating: bool, runId: string, s: Sys, events: seq<Event>)
    requires CleanStart(s, runId)
    requires Quiet(revalidating, s, events) && RestartsAt(revalidating, s, events, CoreOf(s.world))
    requires LossesHarmless(revalidating, s, events)
    requires Gather(Run(revalidating, s, events).world).Some?
    ensures var m, core := Run(revalidating, s, events), CoreOf(s.world);
      && ((exists more :: EscalatesElsewhere(revalidating, m, more, core)) <==> UndoWouldChange(m))
      && (UndoWouldChange(m) <==> CoreOf(m.world) != core)
      && (RestartSafe(m) ==> Pending(m).None?)
  {
    var m, core := Run(revalidating, s, events), CoreOf(s.world);
    RunKeepsUndoable(revalidating, s, events, core);
    PendingTells(m, core);
    if CoreOf(m.world) == core {
      NoneEscalatesElsewhere(revalidating, m, core);
    } else {
      var more := RestartCanGiveUp(revalidating, m, core);
    }
  }
}
