/** The trial that kills a run in the middle of `execute` and starts it again (src/chaos/harness.py), with a reasoner
    that always proposes the same action (src/chaos/agent_process.py). */
module MidExecution {
  import opened Options
  import opened MockService
  import opened Records
  import opened Actions
  import opened Tools
  import opened Observations
  import opened Workflow
  import opened Durable
  import opened ExactlyOnce
  import opened Conservation
  import opened Reproposals
  import opened Legs
  import opened Witnesses

  /** Every proposal is `a`, and nobody edits it. */
  ghost predicate Scripted(events: seq<Event>, a: string) {
    forall e | e in events :: e.NodeRun? ==> ActionOf(e.oracle) == a && e.oracle.edited.None?
  }

  /** The run has had no other action. */
  ghost predicate OnlyAction(c: Checkpoint, a: string) {
    && (c.state.action == None || c.state.action == Some(a))
    && (c.next !in {Diagnose, ProposeAction} ==> c.state.action == Some(a))
  }

  lemma UpdateKeepsAction(revalidating: bool, node: Node, s: AgentState, r: Reply, a: string)
    requires Update(node, s, r).Some? && OnlyAction(Checkpoint(node, s), a)
    requires r.Proposed? ==> Join(r.tool, r.target) == a
    requires r.Decided? ==> r.edited.None?
    ensures var after := Update(node, s, r).value; OnlyAction(Checkpoint(Next(revalidating, node, after), after), a)
  {
  }

  lemma AskScripted(c: Checkpoint, w: World, ledger: Ledger, o: Oracle)
    requires Ask(c.next, c.state, w, ledger, o).Some?
    ensures var r := Ask(c.next, c.state, w, ledger, o).value.3;
      (r.Proposed? ==> Join(r.tool, r.target) == ActionOf(o)) && (r.Decided? ==> r.edited == o.edited)
  {
  }

  lemma AfterKeepsAction(revalidating: bool, s: Sys, body: Option<Body>, crash: Crash, timestamp: int, a: string)
    requires OnlyAction(s.checkpoint, a)
    requires body.Some? ==> var after := body.value.after;
      OnlyAction(Checkpoint(Next(revalidating, s.checkpoint.next, after), after), a)
    ensures OnlyAction(AfterBody(revalidating, s, body, crash, timestamp).checkpoint, a)
  {
  }

  lemma StepKeepsAction(revalidating: bool, s: Sys, e: Event, a: string)
    requires OnlyAction(s.checkpoint, a)
    requires e.NodeRun? ==> ActionOf(e.oracle) == a && e.oracle.edited.None?
    ensures OnlyAction(Step(revalidating, s, e).checkpoint, a)
  {
    if e.NodeRun? && s.checkpoint.next != End {
      var body := RunBody(s.checkpoint, s.world, s.ledger, e.oracle);
      if body.Some? {
        AskScripted(s.checkpoint, s.world, s.ledger, e.oracle);
        var reply := Ask(s.checkpoint.next, s.checkpoint.state, s.world, s.ledger, e.oracle).value.3;
        UpdateKeepsAction(revalidating, s.checkpoint.next, s.checkpoint.state, reply, a);
      }
      AfterKeepsAction(revalidating, s, body, e.crash, e.timestamp, a);
    }
  }

  /** A reasoner that always proposes the same action always comes back to an owed one first. */
  lemma {:induction false} ScriptedRepeats(revalidating: bool, runId: string, s: Sys, events: seq<Event>, a: string)
    requires Fresh(s, runId) && Scripted(events, a)
    ensures Repeats(revalidating, s, events)
    ensures OnlyAction(Run(revalidating, s, events).checkpoint, a)
    ensures var owed := Owed(revalidating, s, events); owed == None || owed == Some(a)
  {
    if events != [] {
      var n := |events| - 1;
      assert events[n] in events && forall e | e in events[..n] :: e in events;
      ScriptedRepeats(revalidating, runId, s, events[..n], a);
      StepKeepsAction(revalidating, Run(revalidating, s, events[..n]), events[n], a);
    }
  }

  // ---- The trial. ----

  ghost predicate ProposesRestart(o: Oracle, x: string) {
    && o.tool == ToolName(RestartService) && o.target == x && o.llm == LowRisk
    && o.decision == Approved && o.edited.None?
  }

  /** Surviving node runs, the kill, and new starts. */
  ghost predicate TrialEvents(events: seq<Event>, o: Oracle) {
    forall e | e in events :: e == StartAgain || e == NodeRun(o, BeforeAudit, 0) || (e.NodeRun? && e.crash == Survives)
  }

  lemma TrialAppend(a: seq<Event>, b: seq<Event>, o: Oracle)
    requires TrialEvents(a, o) && TrialEvents(b, o)
    ensures TrialEvents(a + b, o)
  {
  }

  /** Up to `execute`, low risk. */
  lemma DiagnosedToExecute(s: Sys, o: Oracle, x: string) returns (events: seq<Event>, t: Sys)
    requires s.checkpoint.next == Diagnose && Gather(s.world).Some? && ProposesRestart(o, x)
    requires x in Gather(s.world).value.services && Gather(s.world).value.services[x].restarts == 0
    ensures Leads(true, s, events, t, 4)
    ensures var c := t.checkpoint.state;
      && At(t, Execute, c, s.world, s.ledger) && c.runId == s.checkpoint.state.runId
      && c.action == Some(ActionOf(o)) && c.params == o.params && c.key == Some(Key(c.runId, ActionOf(o)))
  {
    var e1, m := Diagnosing(true, s, o);
    FirstRestartIsLow(m.checkpoint.state, o, x);
    var e2, u := ProposingAndClassifying(true, m, o, LowRisk);
    Chain(true, s, e1, m, 1, e2, u, 2);
    var e3, v := Preparing(true, u, o, ActionOf(o));
    Chain(true, s, e1 + e2, u, 3, e3, v, 1);
    events, t := e1 + e2 + e3, v;
  }

  /** Killed after the tool call and its ledger write, before the node is committed. */
  lemma Killed(s: Sys, o: Oracle, a: string, out: Outcome) returns (e: Event, t: Sys)
    requires s.checkpoint.next == Execute && s.checkpoint.state.action == Some(a)
    requires var c := s.checkpoint.state;
      c.key.Some? && ExecuteAction(s.world, s.ledger, a, c.params, c.key.value) == Some(out)
    ensures e == NodeRun(o, BeforeAudit, 0) && t == Step(true, s, e)
    ensures At(t, Execute, s.checkpoint.state, out.world, out.ledger)
  {
    e := NodeRun(o, BeforeAudit, 0);
    t := Step(true, s, e);
  }

  lemma RestartedSweep(w: World, x: string)
    requires Gather(w).Some? && x in Gather(w).value.services && x in w.services
    ensures var v := RestartedWorld(w, x);
      && Gather(v).Some? && x in Gather(v).value.services
      && Gather(v).value.services[x].restarts == w.services[x].restarts + 1
      && Gather(v).value.services[x].replicas == w.services[x].replicas
    ensures Gather(w).value.services[x].restarts == w.services[x].restarts
  {
  }

  lemma SecondRestartIsMedium(c: AgentState, o: Oracle, x: string)
    requires ProposesRestart(o, x) && c.observations.Some? && x in c.observations.value.services
    requires var v := c.observations.value.services[x]; v.restarts >= 1 && v.replicas < MIN_REDUNDANT_REPLICAS
    ensures Proposable(c, o) && PolicyTier(c, o) == MediumRisk
  {
    RestartParses(o, x);
  }

  lemma Marking(s: Sys, o: Oracle) returns (events: seq<Event>, t: Sys)
    requires s.checkpoint.next == MarkAwaiting
    ensures Leads(true, s, events, t, 1)
    ensures At(t, AwaitApproval, s.checkpoint.state.(status := Some(AWAITING_APPROVAL)), s.world, s.ledger)
  {
    events, t := Leg(true, s, o,
      Body(s.world, s.ledger, None, s.checkpoint.state.(status := Some(AWAITING_APPROVAL))));
  }

  /** The second attempt up to the sleep: its sweep counts the restart of the first. */
  lemma FlooredToSleep(s: Sys, o: Oracle, x: string) returns (events: seq<Event>, t: Sys)
    requires s.checkpoint.next == Diagnose && Gather(s.world).Some? && ProposesRestart(o, x)
    requires x in Gather(s.world).value.services
    requires var v := Gather(s.world).value.services[x]; v.restarts >= 1 && v.replicas < MIN_REDUNDANT_REPLICAS
    ensures Leads(true, s, events, t, 4)
    ensures var c := t.checkpoint.state;
      && At(t, AwaitApproval, c, s.world, s.ledger) && c.runId == s.checkpoint.state.runId
      && c.status == Some(AWAITING_APPROVAL) && c.tier == Some(MediumRisk)
      && c.action == Some(ActionOf(o)) && c.params == o.params && c.observations == Gather(s.world)
      && c.fingerprint == Fingerprint(Gather(s.world).value, ActionOf(o))
  {
    var e1, m := Diagnosing(true, s, o);
    SecondRestartIsMedium(m.checkpoint.state, o, x);
    var e2, u := ProposingAndClassifying(true, m, o, MediumRisk);
    Chain(true, s, e1, m, 1, e2, u, 2);
    var e3, v := Marking(u, o);
    Chain(true, s, e1 + e2, u, 3, e3, v, 1);
    events, t := e1 + e2 + e3, v;
  }

  /** Approved and found free of drift. */
  lemma ApprovedToPrepare(s: Sys, o: Oracle, a: string) returns (events: seq<Event>, t: Sys)
    requires s.checkpoint.next == AwaitApproval && o.decision == Approved && o.edited.None?
    requires s.checkpoint.state.action == Some(a) && Gather(s.world).Some? && s.checkpoint.state.fingerprint.Some?
    requires s.checkpoint.state.fingerprint == Fingerprint(Gather(s.world).value, a)
    ensures Leads(true, s, events, t, 2)
    ensures var c := t.checkpoint.state;
      && At(t, PrepareExecution, c, s.world, s.ledger) && c.runId == s.checkpoint.state.runId
      && c.action == Some(a) && c.params == s.checkpoint.state.params
  {
    var d := s.checkpoint.state.(decision := Some(Approved), approver := o.approver);
    var e1, m := Leg(true, s, o, Body(s.world, s.ledger, None, d));
    ApprovedIsRechecked(d);
    var e2, u := Rechecking(m, o, a);
    Chain(true, s, e1, m, 1, e2, u, 1);
    events, t := e1 + e2, u;
  }

  /** The ledger answers, the verification passes. */
  lemma ReplayedToEnd(s: Sys, o: Oracle, a: string, entry: Entry) returns (events: seq<Event>, t: Sys)
    requires s.checkpoint.next == PrepareExecution && s.checkpoint.state.action == Some(a)
    requires var key := Key(s.checkpoint.state.runId, a); key in s.ledger && s.ledger[key] == entry
    requires ParseCall(a, s.checkpoint.state.params).Some? && VerifyAction(s.world, a, entry.result) == Some(true)
    ensures Leads(true, s, events, t, 4)
    ensures At(t, End, t.checkpoint.state, s.world, s.ledger) && t.checkpoint.state.status == Some(COMPLETED)
  {
    var e1, m := Acting(true, s, o, a, Outcome(s.world, s.ledger, entry, false));
    var e2, u := Verifying(true, m, o, true);
    Chain(true, s, e1, m, 2, e2, u, 1);
    var e3, v := Ending(true, u, o);
    Chain(true, s, e1 + e2, u, 3, e3, v, 1);
    events, t := e1 + e2 + e3, v;
  }

  /** To the kill: the service was restarted, the ledger knows it, the checkpoint does not. */
  lemma StartedAndKilled(runId: string, s: Sys, o: Oracle, x: string)
    returns (events: seq<Event>, kill: Event, t: Sys, entry: Entry)
    requires CleanStart(s, runId) && Gather(s.world).Some? && ProposesRestart(o, x)
    requires x in Gather(s.world).value.services && x in s.world.services && s.world.services[x].restarts == 0
    requires s.world.services[x].Restarted().Status() == Healthy
    ensures kill == NodeRun(o, BeforeAudit, 0) && t == Run(true, s, events + [kill])
    ensures forall e | e in events :: e.NodeRun? && e.crash == Survives
    ensures At(t, Execute, t.checkpoint.state, RestartedWorld(s.world, x), s.ledger[Key(runId, ActionOf(o)) := entry])
    ensures t.checkpoint.state.runId == runId && t.checkpoint.state.params == o.params
    ensures VerifyAction(t.world, ActionOf(o), entry.result) == Some(true)
  {
    RestartedSweep(s.world, x);
    var m;
    events, m := DiagnosedToExecute(s, o, x);
    var out := RestartOutcome(s.world, s.ledger, o, x, Key(runId, ActionOf(o)));
    entry := out.entry;
    kill, t := Killed(m, o, ActionOf(o), out);
    RunSnoc(true, s, events, kill);
  }

  lemma OneAct(runId: string, s: Sys, events: seq<Event>, o: Oracle, key: string)
    requires Fresh(s, runId) && key !in s.ledger && key in Run(true, s, events).ledger
    requires TrialEvents(events, o)
    ensures Performances(Run(true, s, events).history, key) == 1
  {
    SurvivorsLoseNothing(true, s, events, key);
    AtMostOnceExactly(true, runId, s, events, key);
  }

  /** From the sleep on. */
  lemma ApprovedAndReplayed(s: Sys, o: Oracle, x: string, entry: Entry) returns (events: seq<Event>, t: Sys)
    requires s.checkpoint.next == AwaitApproval && ProposesRestart(o, x) && Gather(s.world).Some?
    requires x in Gather(s.world).value.services
    requires var c := s.checkpoint.state;
      && c.action == Some(ActionOf(o)) && c.params == o.params
      && c.fingerprint == Fingerprint(Gather(s.world).value, ActionOf(o))
      && Key(c.runId, ActionOf(o)) in s.ledger && s.ledger[Key(c.runId, ActionOf(o))] == entry
    requires VerifyAction(s.world, ActionOf(o), entry.result) == Some(true)
    ensures Leads(true, s, events, t, 6)
    ensures At(t, End, t.checkpoint.state, s.world, s.ledger) && t.checkpoint.state.status == Some(COMPLETED)
  {
    RestartParses(o, x);
    var e1, m := ApprovedToPrepare(s, o, ActionOf(o));
    var e2, u := ReplayedToEnd(m, o, ActionOf(o), entry);
    Chain(true, s, e1, m, 2, e2, u, 4);
    events, t := e1 + e2, u;
  }

  lemma KilledToSleep(runId: string, s: Sys, o: Oracle, x: string)
    returns (events: seq<Event>, slept: Sys, entry: Entry)
    requires CleanStart(s, runId) && Gather(s.world).Some? && ProposesRestart(o, x)
    requires x in Gather(s.world).value.services && x in s.world.services
    requires s.world.services[x].restarts == 0 && s.world.services[x].replicas < MIN_REDUNDANT_REPLICAS
    requires s.world.services[x].Restarted().Status() == Healthy
    ensures slept == Run(true, s, events)
    ensures TrialEvents(events, o)
    ensures var c := slept.checkpoint.state;
      && At(slept, AwaitApproval, c, RestartedWorld(s.world, x), s.ledger[Key(runId, ActionOf(o)) := entry])
      && c.runId == runId && c.tier == Some(MediumRisk) && c.action == Some(ActionOf(o)) && c.params == o.params
      && Gather(slept.world).Some? && x in Gather(slept.world).value.services
      && c.fingerprint == Fingerprint(Gather(slept.world).value, ActionOf(o))
    ensures VerifyAction(slept.world, ActionOf(o), entry.result) == Some(true)
  {
    var e1, kill, u;
    e1, kill, u, entry := StartedAndKilled(runId, s, o, x);
    RestartedSweep(s.world, x);
    var e2;
    e2, slept := FlooredToSleep(Step(true, u, StartAgain), o, x);
    events := e1 + [kill] + [StartAgain] + e2;
    TrialAppend(e1, [kill], o);
    TrialAppend(e1 + [kill], [StartAgain], o);
    TrialAppend(e1 + [kill] + [StartAgain], e2, o);
    RunSnoc(true, s, e1 + [kill], StartAgain);
    RunConcat(true, s, e1 + [kill] + [StartAgain], e2);
  }

  /** Killed in the middle of `execute` and started again, a lone service's restart is not repeated - but the run does
      not come back COMPLETED either: the new sweep counts the restart that did happen, the floor makes the second
      attempt medium, and it goes to sleep. Approved, it replays the ledger entry, completes, and has
      acted once. */
  lemma KilledMidExecution(runId: string, s: Sys, o: Oracle, x: string)
    returns (events: seq<Event>, slept: Sys, more: seq<Event>, t: Sys)
    requires CleanStart(s, runId) && Gather(s.world).Some? && ProposesRestart(o, x)
    requires x in Gather(s.world).value.services && x in s.world.services
    requires s.world.services[x].restarts == 0 && s.world.services[x].replicas < MIN_REDUNDANT_REPLICAS
    requires s.world.services[x].Restarted().Status() == Healthy
    ensures slept == Run(true, s, events) && t == Run(true, s, events + more)
    ensures TrialEvents(events + more, o)
    ensures slept.checkpoint.next == AwaitApproval && slept.checkpoint.state.tier == Some(MediumRisk)
    ensures slept.world == RestartedWorld(s.world, x)
    ensures t.checkpoint.next == End && t.checkpoint.state.status == Some(COMPLETED) && t.world == slept.world
    ensures Performances(t.history, Key(runId, ActionOf(o))) == 1
  {
    var entry;
    events, slept, entry := KilledToSleep(runId, s, o, x);
    more, t := ApprovedAndReplayed(slept, o, x, entry);
    RunConcat(true, s, events, more);
    TrialAppend(events, more, o);
    OneAct(runId, s, events + more, o, Key(runId, ActionOf(o)));
  }

  lemma BuiltSole(names: seq<string>, table: Table, x: string)
    requires x in names && !HasDisk(x)
    ensures var w := World(Built(names, NewService(true, 1)), table);
      && GatherFrom(w, names).Some? && x in GatherFrom(w, names).value.services
      && x in w.services && w.services[x] == NewService(false, 1)
  {
  }

  /** The trial itself: the sandbox as built, and service_a. */
  lemma TrialGoesToSleep(runId: string, table: Table, o: Oracle)
    returns (s: Sys, events: seq<Event>, slept: Sys, more: seq<Event>, t: Sys)
    requires ProposesRestart(o, "service_a")
    ensures s == Sys(Checkpoint(Diagnose, Workflow.NewThread(runId)),
                     World(Built(KNOWN_SERVICES, NewService(true, 1)), table), map[], [], [])
    ensures slept == Run(true, s, events) && t == Run(true, s, events + more) && TrialEvents(events + more, o)
    ensures slept.checkpoint.next == AwaitApproval && slept.checkpoint.state.tier == Some(MediumRisk)
    ensures t.checkpoint.next == End && t.checkpoint.state.status == Some(COMPLETED) && t.world == slept.world
    ensures Performances(t.history, Key(runId, ActionOf(o))) == 1
  {
    s := Sys(Checkpoint(Diagnose, Workflow.NewThread(runId)),
             World(Built(KNOWN_SERVICES, NewService(true, 1)), table), map[], [], []);
    assert o.target == KNOWN_SERVICES[0];
    BuiltSole(KNOWN_SERVICES, table, o.target);
    BuiltCore(KNOWN_SERVICES, NewService(true, 1), NewService(true, 1), table);
    RestartHealsCompute(1, []);
    events, slept, more, t := KilledMidExecution(runId, s, o, o.target);
  }
}
