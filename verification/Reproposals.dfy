/** Runs started again from START while an execution is in force, as after a kill in the middle of `execute`
    (src/chaos/harness.py): what holds if the new attempt executes the same action again before any other. */
module Reproposals {
  import opened Options
  import opened Actions
  import opened Tools
  import opened Workflow
  import opened Durable
  import opened ExactlyOnce
  import opened Conservation

  /** The action a restarted run left in force and has not come back to yet. */
  function Owed(revalidating: bool, s: Sys, events: seq<Event>): Option<string> {
    if events == [] then None
    else
      var n := |events| - 1;
      OwedAfter(Owed(revalidating, s, events[..n]), Run(revalidating, s, events[..n]), events[n],
                Run(revalidating, s, events))
  }

  function OwedAfter(owed: Option<string>, m: Sys, e: Event, t: Sys): Option<string> {
    if e.StartAgain? then (if Pending(m).Some? then m.checkpoint.state.action else owed)
    else if m.checkpoint.next == PrepareExecution && t.checkpoint.next == Execute then None
    else owed
  }

  /** No other action is prepared while one is owed. */
  ghost predicate Repeats(revalidating: bool, s: Sys, events: seq<Event>) {
    if events == [] then true
    else
      var n := |events| - 1;
      && Repeats(revalidating, s, events[..n])
      && RepeatsAt(Owed(revalidating, s, events[..n]), Run(revalidating, s, events[..n]))
  }

  predicate RepeatsAt(owed: Option<string>, m: Sys) {
    owed.Some? && m.checkpoint.next == PrepareExecution ==> m.checkpoint.state.action == owed
  }

  // ---- The undo. ----

  /** The ledger's undo of `a` leads back to `core`. */
  ghost predicate UndoKept(s: Sys, core: Core, a: string) {
    var key := Key(s.checkpoint.state.runId, a);
    key in s.ledger && Restores(s.world, s.ledger[key].compensation, core)
  }

  /** `Undoable`, or on the way back to the owed action with its undo kept in the ledger. */
  ghost predicate Owing(s: Sys, core: Core, owed: Option<string>) {
    match owed
    case None => Undoable(s, core)
    case Some(a) =>
      && GoodHistories(core) && LedgerAnchored(s, core) && LedgerSticks(s) && UndoKept(s, core, a)
      && s.checkpoint.next !in {Execute, Verify, RollingBack, RolledBack, Complete}
      && (s.checkpoint.next == End ==> s.checkpoint.state.status == Some(ESCALATED))
  }

  lemma StillKeepsOwing(s: Sys, t: Sys, core: Core, owed: Option<string>)
    requires Owing(s, core, owed) && Still(s, t)
    ensures Owing(t, core, owed)
  {
    if owed.Some? {
      var key := Key(s.checkpoint.state.runId, owed.value);
      RestoresByCore(s.world, t.world, s.ledger[key].compensation, core);
    } else {
      StillKeepsUndoable(s, t, core);
    }
  }

  lemma PlainKeepsOwing(revalidating: bool, s: Sys, t: Sys, core: Core, a: string)
    requires Owing(s, core, Some(a)) && Plain(revalidating, s, t) && RepeatsAt(Some(a), s)
    requires s.checkpoint.next != End
    ensures if s.checkpoint.next == PrepareExecution then t.checkpoint.next == Execute && Undoable(t, core)
            else t.checkpoint.next != Execute && Owing(t, core, Some(a))
  {
  }

  lemma RestartKeepsOwing(revalidating: bool, s: Sys, core: Core, owed: Option<string>)
    requires Owing(s, core, owed)
    ensures var t := Step(revalidating, s, StartAgain); Owing(t, core, OwedAfter(owed, s, StartAgain, t))
  {
  }

  lemma StepKeepsOwing(revalidating: bool, s: Sys, e: Event, core: Core, owed: Option<string>)
    requires Owing(s, core, owed) && RepeatsAt(owed, s)
    requires HarmlessLoss(s, e, Step(revalidating, s, e))
    requires e.Elsewhere? ==> QuietEvent(s, e)
    ensures var t := Step(revalidating, s, e); Owing(t, core, OwedAfter(owed, s, e, t))
  {
    var t := Step(revalidating, s, e);
    if e.StartAgain? {
      RestartKeepsOwing(revalidating, s, core, owed);
    } else if owed.None? {
      StepKeepsUndoable(revalidating, s, e, core);
    } else if e.Elsewhere? {
      ElsewhereIsIdle(revalidating, s, e);
      StillKeepsOwing(s, t, core, owed);
    } else if s.checkpoint.next != End {
      if RunBody(s.checkpoint, s.world, s.ledger, e.oracle).None? || e.crash != Survives {
        DeathIsIdle(revalidating, s, e);
        StillKeepsOwing(s, t, core, owed);
      } else {
        PlainStep(revalidating, s, e);
        PlainKeepsOwing(revalidating, s, t, core, owed.value);
      }
    }
  }

  // ---- The effect. ----

  /** `a` was rolled back, or may have been: a process died while rolling back. */
  ghost predicate MaybeUndone(h: seq<Fact>, a: string) {
    RolledBackEarlier(h, a) || exists f :: f in h && f.Died? && f.node == RollingBack
  }

  /** The durable world is the start plus the recorded effect of `a`, or the start alone once `a` was rolled back. */
  ghost predicate EffectOf(s: Sys, core: Core, a: string)
    requires Key(s.checkpoint.state.runId, a) in s.ledger
  {
    var effect := CoreEffect(core, s.ledger[Key(s.checkpoint.state.runId, a)].call);
    && (CoreOf(s.world) == core || CoreOf(s.world) == effect)
    && (RolledBackEarlier(s.history, a) ==> CoreOf(s.world) == core)
    && (!MaybeUndone(s.history, a) ==> CoreOf(s.world) == effect)
  }

  /** Every own key is explained, and the world is what the action in progress, or the owed one, made of it. */
  ghost predicate Known(s: Sys, core: Core, owed: Option<string>) {
    var c := s.checkpoint.state;
    && (forall a :: Key(c.runId, a) in s.ledger ==>
          RolledBackEarlier(s.history, a) || (Underway(s.checkpoint) && c.action == Some(a)) || owed == Some(a))
    && (forall a :: RolledBackEarlier(s.history, a) ==> Key(c.runId, a) in s.ledger)
    && (Pending(s).Some? ==> EffectOf(s, core, c.action.value))
    && (owed.Some? ==> Key(c.runId, owed.value) in s.ledger && EffectOf(s, core, owed.value))
    && (s.checkpoint.next == Complete || (s.checkpoint.next == End && c.status == Some(COMPLETED)) ==>
          c.verified == Some(true))
  }

  lemma EffectKept(s: Sys, t: Sys, core: Core, a: string)
    requires Key(s.checkpoint.state.runId, a) in s.ledger && EffectOf(s, core, a)
    requires t.checkpoint.state.runId == s.checkpoint.state.runId && CoreOf(t.world) == CoreOf(s.world)
    requires forall k | k in s.ledger :: k in t.ledger && t.ledger[k] == s.ledger[k]
    requires SameEarlier(s.history, t.history) && s.history <= t.history
    ensures EffectOf(t, core, a)
  {
    assert forall f | f in s.history :: f in t.history;
  }

  lemma StillKeepsKnown(s: Sys, t: Sys, core: Core, owed: Option<string>)
    requires Known(s, core, owed) && Still(s, t) && s.history <= t.history
    ensures Known(t, core, owed)
  {
    if Pending(s).Some? {
      EffectKept(s, t, core, s.checkpoint.state.action.value);
    }
    if owed.Some? {
      EffectKept(s, t, core, owed.value);
    }
  }

  lemma StaysOutside(revalidating: bool, s: Sys, t: Sys)
    requires Plain(revalidating, s, t)
    requires s.checkpoint.next !in {PrepareExecution, Execute, Verify, RollingBack, Complete, End}
    ensures !Underway(s.checkpoint) && !Underway(t.checkpoint) && t.checkpoint.next != Complete
  {
  }

  lemma PlainKeepsKnown(revalidating: bool, s: Sys, t: Sys, core: Core, owed: Option<string>)
    requires Known(s, core, owed) && Owing(s, core, owed)
    requires Plain(revalidating, s, t) && s.history <= t.history
    requires s.checkpoint.next !in {PrepareExecution, Execute, Verify, RollingBack, Complete, End}
    ensures Known(t, core, owed)
  {
    StaysOutside(revalidating, s, t);
    if owed.Some? {
      EffectKept(s, t, core, owed.value);
    }
  }

  lemma VerifiedKeepsKnown(revalidating: bool, s: Sys, t: Sys, core: Core)
    requires Known(s, core, None) && Undoable(s, core)
    requires Plain(revalidating, s, t) && s.history <= t.history
    requires s.checkpoint.next == Verify || s.checkpoint.next == Complete
    ensures Known(t, core, None)
  {
    EffectKept(s, t, core, s.checkpoint.state.action.value);
  }

  /** The owed action, or one that was rolled back earlier, is about to be replayed; any other has a new key. */
  lemma PreparedKeepsKnown(revalidating: bool, s: Sys, t: Sys, core: Core, owed: Option<string>)
    requires Known(s, core, owed) && Owing(s, core, owed) && RepeatsAt(owed, s)
    requires Plain(revalidating, s, t) && s.history <= t.history && s.checkpoint.next == PrepareExecution
    ensures Known(t, core, None)
  {
    if owed.Some? {
      EffectKept(s, t, core, owed.value);
    }
  }

  lemma ExecutedKeepsKnown(s: Sys, t: Sys, a: string, call: ToolCall, core: Core)
    requires Known(s, core, None) && Undoable(s, core) && s.history <= t.history
    requires s.checkpoint.next == Execute && s.checkpoint.state.action == Some(a)
    requires Executed(s, t, a, Key(s.checkpoint.state.runId, a), call)
    ensures Known(t, core, None)
  {
    var runId := s.checkpoint.state.runId;
    if Key(runId, a) in s.ledger {
      EffectKept(s, t, core, a);
    } else {
      PerformEffect(s.world, call);
      forall b | Key(runId, b) == Key(runId, a)
        ensures b == a
      {
        KeyInjective(runId, b, a);
      }
      assert !RolledBackEarlier(s.history, a);
    }
  }

  lemma UndidKeepsKnown(s: Sys, t: Sys, core: Core)
    requires Known(s, core, None) && Undoable(s, core) && s.checkpoint.next == RollingBack && Undid(s, t)
    requires t.checkpoint == s.checkpoint ==> MaybeUndone(t.history, s.checkpoint.state.action.value)
    ensures Known(t, core, None)
  {
    UndidKeepsUndoable(s, t, core);
  }

  lemma RestartKeepsKnown(s: Sys, t: Sys, core: Core, owed: Option<string>)
    requires Known(s, core, owed) && Owing(s, core, owed)
    requires t == s.(checkpoint := Checkpoint(Diagnose, s.checkpoint.state), history := s.history + [StartedAgain])
    ensures Known(t, core, if Pending(s).Some? then s.checkpoint.state.action else owed)
  {
    QuietFacts(s.history, [StartedAgain]);
    if Pending(s).Some? {
      EffectKept(s, t, core, s.checkpoint.state.action.value);
    }
    if owed.Some? {
      EffectKept(s, t, core, owed.value);
    }
  }

  lemma UndoMayBeDone(revalidating: bool, s: Sys, e: Event)
    requires s.checkpoint.next == RollingBack && e.NodeRun? && e.crash != Survives
    ensures exists f :: f in Step(revalidating, s, e).history && f.Died? && f.node == RollingBack
  {
    var body := RunBody(s.checkpoint, s.world, s.ledger, e.oracle);
    var g := FactsOf(s.checkpoint, body, e.crash);
    BodyAdds(revalidating, s, body, e.crash, e.timestamp);
    assert g[|g| - 1] in Step(revalidating, s, e).history;
  }

  lemma Grows(revalidating: bool, s: Sys, e: Event)
    ensures s.history <= Step(revalidating, s, e).history
  {
    assert Step(revalidating, s, e).history == s.history + Added(revalidating, s, e);
  }

  lemma ExecuteKeepsKnown(revalidating: bool, s: Sys, e: Event, core: Core)
    requires Known(s, core, None) && Undoable(s, core) && s.checkpoint.next == Execute
    requires e.NodeRun? && e.crash != BeforeEffect && RunBody(s.checkpoint, s.world, s.ledger, e.oracle).Some?
    requires HarmlessLoss(s, e, Step(revalidating, s, e))
    ensures Known(Step(revalidating, s, e), core, None)
  {
    var c := s.checkpoint.state;
    Grows(revalidating, s, e);
    if e.crash == BeforeLedger {
      LossIsStill(revalidating, s, e);
      StillKeepsKnown(s, Step(revalidating, s, e), core, None);
    } else {
      ExecuteStep(revalidating, s, e, c.action.value, c.key.value);
      ExecutedKeepsKnown(s, Step(revalidating, s, e), c.action.value, ParseCall(c.action.value, c.params).value, core);
    }
  }

  lemma RollingBackKeepsKnown(revalidating: bool, s: Sys, e: Event, core: Core)
    requires Known(s, core, None) && Undoable(s, core) && s.checkpoint.next == RollingBack
    requires e.NodeRun? && e.crash != BeforeEffect && RunBody(s.checkpoint, s.world, s.ledger, e.oracle).Some?
    ensures Known(Step(revalidating, s, e), core, None)
  {
    UndoStep(revalidating, s, e);
    if e.crash != Survives {
      UndoMayBeDone(revalidating, s, e);
    }
    UndidKeepsKnown(s, Step(revalidating, s, e), core);
  }

  lemma NodeRunKeepsKnown(revalidating: bool, s: Sys, e: Event, core: Core, owed: Option<string>)
    requires Known(s, core, owed) && Owing(s, core, owed) && RepeatsAt(owed, s)
    requires e.NodeRun? && s.checkpoint.next != End && HarmlessLoss(s, e, Step(revalidating, s, e))
    ensures var t := Step(revalidating, s, e); Known(t, core, OwedAfter(owed, s, e, t))
  {
    var t := Step(revalidating, s, e);
    Grows(revalidating, s, e);
    if RunBody(s.checkpoint, s.world, s.ledger, e.oracle).None? || e.crash == BeforeEffect {
      DeathIsIdle(revalidating, s, e);
      StillKeepsKnown(s, t, core, owed);
    } else if s.checkpoint.next == Execute {
      ExecuteKeepsKnown(revalidating, s, e, core);
    } else if s.checkpoint.next == RollingBack {
      RollingBackKeepsKnown(revalidating, s, e, core);
    } else if e.crash != Survives {
      DeathIsIdle(revalidating, s, e);
      StillKeepsKnown(s, t, core, owed);
    } else {
      PlainStep(revalidating, s, e);
      if s.checkpoint.next == PrepareExecution {
        PreparedKeepsKnown(revalidating, s, t, core, owed);
      } else if s.checkpoint.next == Verify || s.checkpoint.next == Complete {
        VerifiedKeepsKnown(revalidating, s, t, core);
      } else {
        PlainKeepsKnown(revalidating, s, t, core, owed);
      }
    }
  }

  lemma StepKeepsKnown(revalidating: bool, s: Sys, e: Event, core: Core, owed: Option<string>)
    requires Known(s, core, owed) && Owing(s, core, owed) && RepeatsAt(owed, s)
    requires HarmlessLoss(s, e, Step(revalidating, s, e))
    requires e.Elsewhere? ==> QuietEvent(s, e)
    ensures var t := Step(revalidating, s, e); Known(t, core, OwedAfter(owed, s, e, t))
  {
    if e.StartAgain? {
      RestartKeepsKnown(s, Step(revalidating, s, e), core, owed);
    } else if e.Elsewhere? {
      ElsewhereIsIdle(revalidating, s, e);
      StillKeepsKnown(s, Step(revalidating, s, e), core, owed);
    } else if s.checkpoint.next != End {
      NodeRunKeepsKnown(revalidating, s, e, core, owed);
    }
  }

  // ---- Whole runs. ----

  lemma {:induction false} RunKeepsOwing(revalidating: bool, s: Sys, events: seq<Event>, core: Core)
    requires Undoable(s, core) && Known(s, core, None)
    requires Quiet(revalidating, s, events) && LossesHarmless(revalidating, s, events)
    requires Repeats(revalidating, s, events)
    ensures var t, owed := Run(revalidating, s, events), Owed(revalidating, s, events);
      Owing(t, core, owed) && Known(t, core, owed)
  {
    if events != [] {
      var n := |events| - 1;
      RunKeepsOwing(revalidating, s, events[..n], core);
      var m, owed := Run(revalidating, s, events[..n]), Owed(revalidating, s, events[..n]);
      StepKeepsOwing(revalidating, m, events[n], core, owed);
      StepKeepsKnown(revalidating, m, events[n], core, owed);
    }
  }

  lemma StepKeepsRunId(revalidating: bool, s: Sys, e: Event)
    ensures Step(revalidating, s, e).checkpoint.state.runId == s.checkpoint.state.runId
  {
    var reply := CheckpointStep(revalidating, s, e);
  }

  lemma {:induction false} QuietKeysAreOurs(revalidating: bool, s: Sys, events: seq<Event>, a: string)
    requires Quiet(revalidating, s, events)
    ensures Run(revalidating, s, events).checkpoint.state.runId == s.checkpoint.state.runId
    ensures KeyIsOurs(events, Key(s.checkpoint.state.runId, a))
  {
    if events != [] {
      var n := |events| - 1;
      QuietKeysAreOurs(revalidating, s, events[..n], a);
      StepKeepsRunId(revalidating, Run(revalidating, s, events[..n]), events[n]);
      assert forall e | e in events :: e == events[n] || e in events[..n];
    }
  }

  /** COMPLETED with nothing owed: verified, and the world is what the completed action's entry made of it. */
  ghost predicate CompletedWell(t: Sys, core: Core, owed: Option<string>) {
    var c := t.checkpoint.state;
    && owed.None? && c.verified == Some(true) && c.action.Some?
    && Key(c.runId, c.action.value) in t.ledger && EffectOf(t, core, c.action.value)
  }

  /** ESCALATED with the world as it was, or with the owed action in force and its undo in the ledger. */
  ghost predicate EscalatedWell(t: Sys, core: Core, owed: Option<string>) {
    if owed.None? then CoreOf(t.world) == core
    else UndoKept(t, core, owed.value) && EffectOf(t, core, owed.value)
  }

  lemma EndTells(t: Sys, core: Core, owed: Option<string>)
    requires Owing(t, core, owed) && Known(t, core, owed) && t.checkpoint.next == End
    ensures var c := t.checkpoint.state;
      || (c.status == Some(COMPLETED) && CompletedWell(t, core, owed))
      || (c.status == Some(ESCALATED) && EscalatedWell(t, core, owed))
  {
  }

  lemma RecordedActedOnce(revalidating: bool, runId: string, s: Sys, events: seq<Event>, a: string)
    requires CleanStart(s, runId) && Quiet(revalidating, s, events)
    requires Key(runId, a) in Run(revalidating, s, events).ledger
    ensures var t := Run(revalidating, s, events);
      && t.checkpoint.state.runId == runId
      && Performances(t.history, Key(runId, a)) == 1 + Losses(t.history, Key(runId, a))
  {
    QuietKeysAreOurs(revalidating, s, events, a);
    AtMostOnceExactly(revalidating, runId, s, events, Key(runId, a));
  }

  lemma StartIsKnown(s: Sys, runId: string)
    requires CleanStart(s, runId)
    ensures Undoable(s, CoreOf(s.world)) && Known(s, CoreOf(s.world), None)
  {
  }

  /** A run may be started again from START at any point, also with an execution in force, as long as the owed action
      is the next one prepared. If it ends COMPLETED, its last verification passed, the completed action acted
      once and once more for every loss, and the durable world is the start plus the effect its ledger
      entry recorded - or the start alone if that action was rolled back earlier. If it ends
      ESCALATED, the world is the start's, unless an action is still owed: then the world is the start
      plus that action, and the undo in the ledger leads back to the start. */
  lemma RepeatedEndsConserved(revalidating: bool, runId: string, s: Sys, events: seq<Event>)
    requires CleanStart(s, runId)
    requires Quiet(revalidating, s, events) && LossesHarmless(revalidating, s, events)
    requires Repeats(revalidating, s, events)
    requires Run(revalidating, s, events).checkpoint.next == End
    ensures var t, core, owed := Run(revalidating, s, events), CoreOf(s.world), Owed(revalidating, s, events);
      var c := t.checkpoint.state;
      || (c.status == Some(COMPLETED) && CompletedWell(t, core, owed) && c.runId == runId
          && var key := Key(runId, c.action.value); Performances(t.history, key) == 1 + Losses(t.history, key))
      || (c.status == Some(ESCALATED) && EscalatedWell(t, core, owed))
  {
    var t, core, owed := Run(revalidating, s, events), CoreOf(s.world), Owed(revalidating, s, events);
    StartIsKnown(s, runId);
    RunKeepsOwing(revalidating, s, events, core);
    EndTells(t, core, owed);
    QuietKeysAreOurs(revalidating, s, events, "");
    if t.checkpoint.state.status == Some(COMPLETED) {
      RecordedActedOnce(revalidating, runId, s, events, t.checkpoint.state.action.value);
    }
  }
}
