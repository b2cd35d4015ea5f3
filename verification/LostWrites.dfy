/** What a death between acting and the ledger write (src/tools/mutating.py) costs: the compensation registered by the
    second call leads back to the world the first one left. */
module LostWrites {
  import opened Options
  import opened MockService
  import opened Records
  import opened Actions
  import opened Tools
  import opened Observations
  import opened Workflow
  import opened Durable
  import opened Conservation
  import opened Legs
  import opened Witnesses

  /** From `u` on, quietly, never started again and with no further harmful loss, `more` escalates away from `core`. */
  ghost predicate EscalatesAway(revalidating: bool, u: Sys, more: seq<Event>, core: Core) {
    var t := Run(revalidating, u, more);
    && Quiet(revalidating, u, more) && NeverRestarted(more) && LossesHarmless(revalidating, u, more)
    && t.checkpoint.next == End && t.checkpoint.state.status == Some(ESCALATED)
    && CoreOf(t.world) != core
  }

  /** The calls whose undo a lost ledger write loses: a scaling or a setting that changes something, and a rollback
      that can be performed once more. */
  predicate LosesUndo(w: World, call: ToolCall) {
    match call
    case ScaleCall(x, n) => x in w.services && w.services[x].replicas != n
    case ConfigCall(x, k, v) => x in w.services && Lookup(w.services[x].config, k) != Some(v)
    case RollbackCall(x) => x in w.services && |w.services[x].versions| > 2
    case RestartCall(_) => false
    case ClearCall(_) => false
    case DeleteCall(_, _) => false
  }

  /** `s` is about to execute `call` under its own new key. */
  ghost predicate AboutTo(s: Sys, a: string, call: ToolCall) {
    var c := s.checkpoint.state;
    && s.checkpoint.next == Execute && c.action == Some(a) && c.key == Some(Key(c.runId, a))
    && ParseCall(a, c.params) == Some(call)
  }

  ghost predicate NewKey(s: Sys, a: string) { Key(s.checkpoint.state.runId, a) !in s.ledger }

  // ---- An escalation away from the start. ----

  function Broken(w: World, x: string): World
    requires x in w.services
  {
    w.(services := w.services[x := w.services[x].Faulted(ServiceDown, HighRate).value])
  }

  lemma BrokenCore(w: World, x: string)
    requires x in w.services
    ensures CoreOf(Broken(w, x)) == CoreOf(w) && Broken(w, x).services[x].Status() != Healthy
  {
    CoreUpdate(w, x, w.services[x].Faulted(ServiceDown, HighRate).value);
    assert CoreOf(w).services[x := CoreOf(w).services[x]] == CoreOf(w).services;
  }

  /** What `LosesUndo` means: the second call can be performed, and its undo does not lead to where the first began. */
  lemma SecondUndo(w: World, call: ToolCall)
    requires Perform(w, call).Some? && LosesUndo(w, call)
    ensures var v := Perform(w, call).value.world;
      && CoreOf(v) != CoreOf(w) && !call.DeleteCall? && call.service in v.services
      && Perform(v, call).Some?
      && Compensate(Perform(v, call).value.world, Perform(v, call).value.compensation).Some?
  {
    var x, v := call.service, Perform(w, call).value.world;
    assert CoreOf(w).services[x] == ServiceCoreOf(w.services[x]);
    assert CoreOf(v).services[x] == ServiceCoreOf(v.services[x]);
  }

  /** A failed verification whose undo leads to `back`, then nothing but invalid proposals. */
  lemma FailingAndGivingUp(revalidating: bool, s: Sys, bad: Oracle, back: World)
    returns (events: seq<Event>, t: Sys, k: nat)
    requires s.checkpoint.next == Verify && bad.tool == ""
    requires var c := s.checkpoint.state;
      c.action.Some? && c.result.Some? && c.compensation.Some? && c.observations.Some?
    requires VerifyAction(s.world, s.checkpoint.state.action.value, s.checkpoint.state.result.value) == Some(false)
    requires Compensate(s.world, s.checkpoint.state.compensation.value) == Some(back)
    ensures Leads(revalidating, s, events, t, k)
    ensures t.world == back && t.checkpoint.next == End && t.checkpoint.state.status == Some(ESCALATED)
  {
    var e1, m := Failing(revalidating, s, bad, back);
    if m.checkpoint.next == Escalate {
      var e2, u := Ending(revalidating, m, bad);
      Chain(revalidating, s, e1, m, 4, e2, u, 1);
      events, t, k := e1 + e2, u, 5;
    } else {
      var e2, u, j := GivingUp(revalidating, m, bad);
      Chain(revalidating, s, e1, m, 4, e2, u, j);
      events, t, k := e1 + e2, u, 4 + j;
    }
  }

  /** The call is performed again, and the service breaks before it is verified. */
  lemma AgainAndBroken(revalidating: bool, u: Sys, o: Oracle, a: string, call: ToolCall)
    returns (events: seq<Event>, m: Sys, fault: Event, v: Sys, back: World)
    requires AboutTo(u, a, call) && NewKey(u, a) && u.checkpoint.state.observations.Some?
    requires !call.DeleteCall? && Perform(u.world, call).Some? && GoodHistories(CoreOf(u.world))
    requires Compensate(Perform(u.world, call).value.world, Perform(u.world, call).value.compensation).Some?
    ensures Leads(revalidating, u, events, m, 1) && v == Step(revalidating, m, fault)
    ensures fault.Elsewhere? && QuietEvent(m, fault)
    ensures v.checkpoint.next == Verify
    ensures var c := v.checkpoint.state;
      && c.action == Some(a) && c.result.Some? && c.compensation.Some? && c.observations.Some?
      && VerifyAction(v.world, a, c.result.value) == Some(false)
      && Compensate(v.world, c.compensation.value) == Some(back) && CoreOf(back) == CoreOf(u.world)
  {
    var p, key := Perform(u.world, call).value, Key(u.checkpoint.state.runId, a);
    var entry := Entry(call, p.result, p.compensation);
    events, m := Executing(revalidating, u, o, a, key, Outcome(p.world, u.ledger[key := entry], entry, true));
    BrokenCore(p.world, call.service);
    fault, v := Healing(revalidating, m, Broken(p.world, call.service));
    PerformUndone(u.world, call);
    RestoresByCore(p.world, v.world, p.compensation, CoreOf(u.world));
    RunsByCore(p.world, v.world, p.compensation);
    CallTargets(a, u.checkpoint.state.params, call);
    back := Compensate(v.world, p.compensation).value;
  }

  lemma RunsByCore(w: World, v: World, c: Compensation)
    requires CoreOf(w) == CoreOf(v)
    ensures Compensate(w, c).Some? <==> Compensate(v, c).Some?
  {
    assert w.services.Keys == CoreOf(w).services.Keys && v.services.Keys == CoreOf(v).services.Keys;
  }

  lemma CallTargets(a: string, params: Params, call: ToolCall)
    requires ParseCall(a, params) == Some(call) && !call.DeleteCall?
    ensures Parse(a).Some? && Parse(a).value.target == call.service && Parse(a).value.tool != Some(Tool.DeleteRecords)
  {
  }

  lemma LostCallEscapes(revalidating: bool, u: Sys, a: string, call: ToolCall, core: Core) returns (more: seq<Event>)
    requires AboutTo(u, a, call) && NewKey(u, a) && u.checkpoint.state.observations.Some?
    requires !call.DeleteCall? && Perform(u.world, call).Some? && GoodHistories(CoreOf(u.world))
    requires Compensate(Perform(u.world, call).value.world, Perform(u.world, call).value.compensation).Some?
    requires CoreOf(u.world) != core
    ensures EscalatesAway(revalidating, u, more, core)
  {
    var bad := Oracle("", "", "", NO_PARAMS, LowRisk, Approved, None, None);
    var e1, m, fault, v, back := AgainAndBroken(revalidating, u, bad, a, call);
    var e2, t, k := FailingAndGivingUp(revalidating, v, bad, back);
    more := e1 + [fault] + e2;
    Joint(revalidating, u, e1, m, 1, fault, e2, t, k);
    assert forall e | e in more :: e == fault || (e.NodeRun? && e.crash == Survives);
    WithoutLossesHarmless(revalidating, u, more);
    assert Run(revalidating, u, more) == t;
  }

  // ---- No such escalation. ----

  /** A rollback left one version, so that it cannot be performed again: `execute` raises for good. */
  ghost predicate Stuck(s: Sys, a: string, x: string) {
    && AboutTo(s, a, RollbackCall(x)) && NewKey(s, a)
    && x in s.world.services && |s.world.services[x].versions| == 1
  }

  lemma StuckStays(revalidating: bool, s: Sys, e: Event, a: string, x: string)
    requires Stuck(s, a, x) && !e.StartAgain? && (e.Elsewhere? ==> QuietEvent(s, e))
    ensures Stuck(Step(revalidating, s, e), a, x)
  {
    if e.Elsewhere? {
      assert s.world.services.Keys == CoreOf(s.world).services.Keys == e.world.services.Keys;
      assert CoreOf(s.world).services[x] == ServiceCoreOf(s.world.services[x]);
      assert CoreOf(e.world).services[x] == ServiceCoreOf(e.world.services[x]);
    } else {
      assert RunBody(s.checkpoint, s.world, s.ledger, e.oracle).None?;
    }
  }

  ghost predicate Gone(r: Result, w: World) {
    r.Deleted? && forall i | i in r.ids :: i !in w.table.rows
  }

  /** On the way of a delete: what it deleted is gone, so that its verification passes. */
  ghost predicate Deleting(s: Sys, a: string, kind: string, ids: Option<seq<int>>) {
    var c := s.checkpoint.state;
    match s.checkpoint.next
    case Execute =>
      && AboutTo(s, a, DeleteCall(kind, ids))
      && (!NewKey(s, a) ==> Gone(s.ledger[Key(c.runId, a)].result, s.world))
    case Verify =>
      && c.action == Some(a) && ParseCall(a, c.params) == Some(DeleteCall(kind, ids))
      && c.result.Some? && Gone(c.result.value, s.world)
    case Complete => true
    case End => c.status == Some(COMPLETED)
    case _ => false
  }

  lemma DeletedIsGone(w: World, kind: string, ids: Option<seq<int>>)
    ensures var p := Perform(w, DeleteCall(kind, ids)).value; Gone(p.result, p.world)
  {
  }

  lemma GoneVerifies(w: World, a: string, params: Params, r: Result, kind: string, ids: Option<seq<int>>)
    requires ParseCall(a, params) == Some(DeleteCall(kind, ids)) && Gone(r, w)
    ensures VerifyAction(w, a, r) == Some(true)
  {
    DeleteTargets(a, params, kind, ids);
    ListedIsThere(w.table, kind);
  }

  lemma DeleteTargets(a: string, params: Params, kind: string, ids: Option<seq<int>>)
    requires ParseCall(a, params) == Some(DeleteCall(kind, ids))
    ensures Parse(a) == Some(Parsed(Some(Tool.DeleteRecords), kind))
  {
  }

  lemma ListedIsThere(t: Table, kind: string)
    ensures forall i | i in IdsIn(ByKind(t, Some(kind), NO_LIMIT)) :: i in t.rows
  {
    var rows := ByKind(t, Some(kind), NO_LIMIT);
    ByKindMeans(t, Some(kind), NO_LIMIT);
    forall i | i in IdsIn(rows)
      ensures i in t.rows
    {
      var k :| 0 <= k < |rows| && IdsIn(rows)[k] == i;
      assert rows[k].id in t.rows;
    }
  }

  lemma ExecuteKeepsDeleting(revalidating: bool, s: Sys, e: Event, a: string, kind: string, ids: Option<seq<int>>)
    requires Deleting(s, a, kind, ids) && s.checkpoint.next == Execute && e.NodeRun?
    ensures Deleting(Step(revalidating, s, e), a, kind, ids)
  {
    var key, body := Key(s.checkpoint.state.runId, a), RunBody(s.checkpoint, s.world, s.ledger, e.oracle);
    if body.Some? && e.crash != BeforeEffect {
      ExecuteBody(s.checkpoint, s.world, s.ledger, e.oracle, a, key, body.value);
      var call, f := CallOfBody(revalidating, s, body.value, e.crash, e.timestamp);
      DeletedIsGone(s.world, kind, ids);
    } else {
      DeathIsIdle(revalidating, s, e);
    }
  }

  lemma PassedBody(c: Checkpoint, w: World, ledger: Ledger, o: Oracle)
    requires c.next == Verify && c.state.action.Some? && c.state.result.Some?
    requires VerifyAction(w, c.state.action.value, c.state.result.value) == Some(true)
    ensures RunBody(c, w, ledger, o) ==
      Some(Body(w, ledger, None, c.state.(status := Some(VERIFYING), verified := Some(true))))
  {
  }

  lemma AfterReading(revalidating: bool, s: Sys, crash: Crash, timestamp: int, after: AgentState)
    ensures var t := AfterBody(revalidating, s, Some(Body(s.world, s.ledger, None, after)), crash, timestamp);
      && t.world == s.world && t.ledger == s.ledger
      && (t.checkpoint == s.checkpoint
          || t.checkpoint == Checkpoint(Next(revalidating, s.checkpoint.next, after), after))
  {
  }

  lemma VerifyKeepsDeleting(revalidating: bool, s: Sys, e: Event, a: string, kind: string, ids: Option<seq<int>>)
    requires Deleting(s, a, kind, ids) && s.checkpoint.next == Verify && e.NodeRun?
    ensures Deleting(Step(revalidating, s, e), a, kind, ids)
  {
    var c := s.checkpoint.state;
    GoneVerifies(s.world, a, c.params, c.result.value, kind, ids);
    PassedBody(s.checkpoint, s.world, s.ledger, e.oracle);
    AfterReading(revalidating, s, e.crash, e.timestamp, c.(status := Some(VERIFYING), verified := Some(true)));
  }

  lemma CompleteKeepsDeleting(revalidating: bool, s: Sys, e: Event, a: string, kind: string, ids: Option<seq<int>>)
    requires s.checkpoint.next == Complete && e.NodeRun?
    ensures Deleting(Step(revalidating, s, e), a, kind, ids)
  {
    CompletedBody(s.checkpoint, s.world, s.ledger, e.oracle);
    AfterReading(revalidating, s, e.crash, e.timestamp,
                 s.checkpoint.state.(status := Some(COMPLETED), finalState := Some(COMPLETED)));
  }

  lemma CompletedBody(c: Checkpoint, w: World, ledger: Ledger, o: Oracle)
    requires c.next == Complete
    ensures RunBody(c, w, ledger, o) ==
      Some(Body(w, ledger, None, c.state.(status := Some(COMPLETED), finalState := Some(COMPLETED))))
  {
  }

  lemma StepKeepsDeleting(revalidating: bool, s: Sys, e: Event, a: string, kind: string, ids: Option<seq<int>>)
    requires Deleting(s, a, kind, ids) && !e.StartAgain? && (e.Elsewhere? ==> QuietEvent(s, e))
    ensures Deleting(Step(revalidating, s, e), a, kind, ids)
  {
    if e.Elsewhere? {
      assert s.world.table.rows == CoreOf(s.world).rows == e.world.table.rows;
    } else if s.checkpoint.next == Execute {
      ExecuteKeepsDeleting(revalidating, s, e, a, kind, ids);
    } else if s.checkpoint.next == Verify {
      VerifyKeepsDeleting(revalidating, s, e, a, kind, ids);
    } else if s.checkpoint.next == Complete {
      CompleteKeepsDeleting(revalidating, s, e, a, kind, ids);
    }
  }

  lemma {:induction false} NeverEscalates(revalidating: bool, u: Sys, more: seq<Event>, a: string, call: ToolCall)
    requires Quiet(revalidating, u, more) && NeverRestarted(more)
    requires if call.RollbackCall? then Stuck(u, a, call.service)
             else call.DeleteCall? && Deleting(u, a, call.kind, call.ids)
    ensures var t := Run(revalidating, u, more);
      if call.RollbackCall? then Stuck(t, a, call.service) else Deleting(t, a, call.kind, call.ids)
  {
    if more != [] {
      var n := |more| - 1;
      assert more[n] in more && forall e | e in more[..n] :: e in more;
      NeverEscalates(revalidating, u, more[..n], a, call);
      if call.RollbackCall? {
        StuckStays(revalidating, Run(revalidating, u, more[..n]), more[n], a, call.service);
      } else {
        StepKeepsDeleting(revalidating, Run(revalidating, u, more[..n]), more[n], a, call.kind, call.ids);
      }
    }
  }

  /** Otherwise the call changed nothing durable, or it is a delete, or it cannot be performed again. */
  lemma OtherwiseHarmless(w: World, call: ToolCall)
    requires Perform(w, call).Some? && !LosesUndo(w, call) && !call.DeleteCall?
    ensures var v := Perform(w, call).value.world;
      && call.service in v.services
      && (CoreOf(v) == CoreOf(w) || (call.RollbackCall? && |v.services[call.service].versions| == 1))
  {
    var x, v := call.service, Perform(w, call).value.world;
    CoreUpdate(w, x, v.services[x]);
    if call.ConfigCall? {
      assert w.services[x].config[call.key := call.value] == w.services[x].config;
    }
    assert !call.RollbackCall? ==> ServiceCoreOf(v.services[x]) == CoreOf(w).services[x];
    assert CoreOf(w).services[x := CoreOf(w).services[x]] == CoreOf(w).services;
  }

  lemma NoEscape(revalidating: bool, m: Sys, u: Sys, more: seq<Event>, a: string, call: ToolCall, core: Core)
    requires Undoable(m, core) && AboutTo(m, a, call) && NewKey(m, a) && Perform(m.world, call).Some?
    requires u.checkpoint == m.checkpoint && u.ledger == m.ledger && u.world == Perform(m.world, call).value.world
    requires !LosesUndo(m.world, call)
    ensures !EscalatesAway(revalidating, u, more, core)
  {
    if EscalatesAway(revalidating, u, more, core) {
      if call.DeleteCall? {
        NeverEscalates(revalidating, u, more, a, call);
      } else {
        OtherwiseHarmless(m.world, call);
        if CoreOf(u.world) == CoreOf(m.world) {
          NeverIsSafe(revalidating, u, more, core);
          RunKeepsUndoable(revalidating, u, more, core);
        } else {
          NeverEscalates(revalidating, u, more, a, call);
        }
      }
    }
  }

  // ---- Whole runs. ----

  lemma UpdateKeepsSweep(node: Node, s: AgentState, r: Reply)
    requires Update(node, s, r).Some? && (node == Diagnose || s.observations.Some?)
    ensures Update(node, s, r).value.observations.Some?
  {
  }

  lemma StepKeepsSweep(revalidating: bool, s: Sys, e: Event)
    requires s.checkpoint.next != Diagnose ==> s.checkpoint.state.observations.Some?
    ensures var c := Step(revalidating, s, e).checkpoint; c.next != Diagnose ==> c.state.observations.Some?
  {
    var reply := CheckpointStep(revalidating, s, e);
    var c := s.checkpoint;
    if Update(c.next, c.state, reply).Some? && (c.next == Diagnose || c.state.observations.Some?) {
      UpdateKeepsSweep(c.next, c.state, reply);
    }
  }

  /** Past `diagnose` the channels hold a sweep. */
  lemma {:induction false} SweepStays(revalidating: bool, s: Sys, events: seq<Event>)
    requires s.checkpoint.next == Diagnose
    ensures var c := Run(revalidating, s, events).checkpoint; c.next != Diagnose ==> c.state.observations.Some?
  {
    if events != [] {
      var n := |events| - 1;
      SweepStays(revalidating, s, events[..n]);
      StepKeepsSweep(revalidating, Run(revalidating, s, events[..n]), events[n]);
    }
  }

  lemma LostCall(revalidating: bool, m: Sys, o: Oracle, timestamp: int, a: string, call: ToolCall)
    requires AboutTo(m, a, call) && NewKey(m, a) && Perform(m.world, call).Some?
    ensures var u := Step(revalidating, m, NodeRun(o, BeforeLedger, timestamp));
      u.checkpoint == m.checkpoint && u.ledger == m.ledger && u.world == Perform(m.world, call).value.world
  {
  }

  /** The exact condition. Wherever a run whose restarts and earlier losses were harmless dies between performing `call`
      and writing the ledger, continuing it can end in an escalation away from the start - quietly, never
      started again, with no further harmful loss - if and only if the call scaled to another count, set
      another value, or rolled back with more than one version left. It cannot happen to `restart_service`
      and `clear_cache`, which change nothing durable, to `delete_records`, whose verification then always
      passes, nor to a rollback that left one version, whose `execute` raises from then on. */
  lemma LostWriteExactly(revalidating: bool, runId: string, s: Sys, events: seq<Event>, o: Oracle, timestamp: int,
      a: string, call: ToolCall)
    requires CleanStart(s, runId)
    requires Quiet(revalidating, s, events) && RestartsAt(revalidating, s, events, CoreOf(s.world))
    requires LossesHarmless(revalidating, s, events)
    requires var m := Run(revalidating, s, events);
      AboutTo(m, a, call) && NewKey(m, a) && Perform(m.world, call).Some?
    ensures var m := Run(revalidating, s, events);
      var u := Step(revalidating, m, NodeRun(o, BeforeLedger, timestamp));
      (exists more :: EscalatesAway(revalidating, u, more, CoreOf(s.world))) <==> LosesUndo(m.world, call)
  {
    var m, core := Run(revalidating, s, events), CoreOf(s.world);
    var u := Step(revalidating, m, NodeRun(o, BeforeLedger, timestamp));
    RunKeepsUndoable(revalidating, s, events, core);
    LostCall(revalidating, m, o, timestamp, a, call);
    if LosesUndo(m.world, call) {
      SecondUndo(m.world, call);
      PerformKeepsHistories(m.world, call);
      SweepStays(revalidating, s, events);
      var more := LostCallEscapes(revalidating, u, a, call, core);
    } else {
      forall more
        ensures !EscalatesAway(revalidating, u, more, core)
      {
        NoEscape(revalidating, m, u, more, a, call, core);
      }
    }
  }
}
