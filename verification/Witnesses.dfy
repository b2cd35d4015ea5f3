/** Runs that show where the code keeps less than its comments promise, and that the bounds are tight. */
module Witnesses {
  import opened Options
  import opened MockService
  import opened Records
  import opened Actions
  import opened Tools
  import opened Observations
  import opened Workflow
  import opened Durable
  import opened Conservation
  import opened ExactlyOnce
  import opened Legs

  // ---- Losing a ledger write. ----

  /** A death between acting and writing the ledger makes the continued run act a second time. */
  lemma LostWriteActsTwice(revalidating: bool, s: Sys, o: Oracle, a: string, key: string)
    requires s.checkpoint.next == Execute && s.checkpoint.state.action == Some(a) && s.checkpoint.state.key == Some(key)
    requires ParseCall(a, s.checkpoint.state.params).Some? && key !in s.ledger
    requires Perform(s.world, ParseCall(a, s.checkpoint.state.params).value).Some?
    requires Perform(Perform(s.world, ParseCall(a, s.checkpoint.state.params).value).value.world,
                     ParseCall(a, s.checkpoint.state.params).value).Some?
    ensures var call := ParseCall(a, s.checkpoint.state.params).value;
      var dead := Step(revalidating, s, NodeRun(o, BeforeLedger, 0));
      var t := Step(revalidating, dead, NodeRun(o, Survives, 0));
      && t.world == Perform(Perform(s.world, call).value.world, call).value.world
      && Performances(t.history, key) == Performances(s.history, key) + 2
      && Losses(t.history, key) == Losses(s.history, key) + 1
      && t.checkpoint.next == Verify
  {
    var call := ParseCall(a, s.checkpoint.state.params).value;
    var dead := Step(revalidating, s, NodeRun(o, BeforeLedger, 0));
    ActsOnce(revalidating, s, o, BeforeLedger, a, key, call);
    assert dead.checkpoint == s.checkpoint && dead.ledger == s.ledger;
    ActsOnce(revalidating, dead, o, Survives, a, key, call);
  }

  lemma ActsOnce(revalidating: bool, s: Sys, o: Oracle, crash: Crash, a: string, key: string, call: ToolCall)
    requires s.checkpoint.next == Execute && s.checkpoint.state.action == Some(a) && s.checkpoint.state.key == Some(key)
    requires ParseCall(a, s.checkpoint.state.params) == Some(call) && key !in s.ledger
    requires Perform(s.world, call).Some? && (crash == BeforeLedger || crash == Survives)
    ensures var t := Step(revalidating, s, NodeRun(o, crash, 0));
      && t.world == Perform(s.world, call).value.world
      && Performances(t.history, key) == Performances(s.history, key) + 1
      && Losses(t.history, key) == Losses(s.history, key) + (if crash == BeforeLedger then 1 else 0)
      && (crash == BeforeLedger ==> t.checkpoint == s.checkpoint && t.ledger == s.ledger)
      && (crash == Survives ==> t.checkpoint.next == Verify)
  {
    var t, g := Step(revalidating, s, NodeRun(o, crash, 0)), Added(revalidating, s, NodeRun(o, crash, 0));
    assert |g| == 2 && PerformedUnder(g[0], key) && (LostUnder(g[0], key) <==> crash == BeforeLedger)
      && !g[1].ToolCalled?;
    CountTwo(s.history, g, (f: Fact) => PerformedUnder(f, key));
    CountTwo(s.history, g, (f: Fact) => LostUnder(f, key));
  }

  lemma CountTwo(h: seq<Fact>, g: seq<Fact>, p: Fact -> bool)
    requires |g| == 2 && !p(g[1])
    ensures Count(h + g, p) == Count(h, p) + (if p(g[0]) then 1 else 0)
  {
    assert h + g == h + [g[0]] + [g[1]];
    CountOne(h, g[0], p);
    CountOne(h + [g[0]], g[1], p);
  }

  // ---- Scaling a service, and giving up. ----

  ghost predicate ScalesTo(o: Oracle, x: string, n: int) {
    o.tool == ToolName(ScaleService) && o.target == x && o.params.replicas == Given(n)
  }

  lemma ScaleParses(o: Oracle, x: string, n: int)
    requires ScalesTo(o, x, n)
    ensures Parse(ActionOf(o)) == Some(Parsed(Some(ScaleService), x))
    ensures ParseCall(ActionOf(o), o.params) == Some(ScaleCall(x, n))
  {
    ToolNameParses(ScaleService, x);
  }

  /** The sweep shows `x`, and not as a sole instance that was already restarted. */
  ghost predicate Redundant(c: AgentState, x: string) {
    && c.observations.Some? && x in c.observations.value.services
    && var v := c.observations.value.services[x]; v.replicas >= MIN_REDUNDANT_REPLICAS || v.restarts < 1
  }

  lemma ScaleIsLow(c: AgentState, o: Oracle, x: string, n: int)
    requires ScalesTo(o, x, n) && Redundant(c, x)
    ensures Proposable(c, o)
    ensures PolicyTier(c, o) == o.llm
  {
    ScaleParses(o, x, n);
  }

  function ScaledWorld(w: World, x: string, n: int): World
    requires x in w.services
  {
    w.(services := w.services[x := w.services[x].Scaled(n)])
  }

  function ScaleEntry(w: World, x: string, n: int): Entry
    requires x in w.services
  {
    Entry(ScaleCall(x, n), Result.Scaled(w.services[x].replicas, n), ScaleBack(x, w.services[x].replicas))
  }

  lemma ScaledStillGathers(w: World, x: string, n: int)
    requires Gather(w).Some? && x in w.services
    ensures Gather(ScaledWorld(w, x, n)).Some?
  {
  }

  /** A low-risk scaling under a key the ledger does not know, from the proposal to `verify`. */
  lemma ScalingLow(revalidating: bool, s: Sys, o: Oracle, x: string, n: int) returns (events: seq<Event>, t: Sys)
    requires s.checkpoint.next == ProposeAction && ScalesTo(o, x, n) && o.llm == LowRisk
    requires Redundant(s.checkpoint.state, x) && x in s.world.services
    requires Key(s.checkpoint.state.runId, ActionOf(o)) !in s.ledger
    ensures Leads(revalidating, s, events, t, 4)
    ensures var c := t.checkpoint.state;
      && At(t, Verify, c, ScaledWorld(s.world, x, n),
            s.ledger[Key(s.checkpoint.state.runId, ActionOf(o)) := ScaleEntry(s.world, x, n)])
      && SameRun(s.checkpoint.state, c) && c.action == Some(ActionOf(o)) && c.invalid.None?
      && c.result == Some(ScaleEntry(s.world, x, n).result)
      && c.compensation == Some(ScaleBack(x, s.world.services[x].replicas))
  {
    ScaleParses(o, x, n);
    ScaleIsLow(s.checkpoint.state, o, x, n);
    var key, entry := Key(s.checkpoint.state.runId, ActionOf(o)), ScaleEntry(s.world, x, n);
    events, t := LowRiskCycle(revalidating, s, o,
        Outcome(ScaledWorld(s.world, x, n), s.ledger[key := entry], entry, true));
  }

  lemma NoToolIsInvalid(o: Oracle, sweep: Sweep)
    requires o.tool == ""
    ensures Parse(ActionOf(o)).Some?
    ensures Validate(sweep, Parse(ActionOf(o)).value) == Some(UnknownTool)
  {
    assert ActionOf(o)[0] == ':';
  }

  /** An invalid proposal and its replan. */
  lemma InvalidCycle(revalidating: bool, s: Sys, o: Oracle) returns (events: seq<Event>, t: Sys)
    requires s.checkpoint.next == ProposeAction && s.checkpoint.state.observations.Some? && o.tool == ""
    ensures Leads(revalidating, s, events, t, 2)
    ensures var c, d := s.checkpoint.state, t.checkpoint.state;
      && At(t, if c.cycles + 1 >= MAX_REPLAN_CYCLES then Escalate else ProposeAction, d, s.world, s.ledger)
      && d.cycles == c.cycles + 1 && d.observations == c.observations
  {
    NoToolIsInvalid(o, s.checkpoint.state.observations.value);
    var after := OnPropose(s.checkpoint.state, o.tool, o.target, o.params).value;
    var e1, m := Leg(revalidating, s, o, Body(s.world, s.ledger, None, after));
    var e2, u := Replanning(revalidating, m, o);
    Chain(revalidating, s, e1, m, 1, e2, u, 1);
    events, t := e1 + e2, u;
  }

  /** Nothing but invalid proposals escalates, whatever the counter says. */
  lemma {:induction false} GivingUp(revalidating: bool, s: Sys, o: Oracle) returns (events: seq<Event>, t: Sys, k: nat)
    requires s.checkpoint.next == ProposeAction && s.checkpoint.state.observations.Some? && o.tool == ""
    ensures Leads(revalidating, s, events, t, k)
    ensures At(t, End, t.checkpoint.state, s.world, s.ledger) && t.checkpoint.state.status == Some(ESCALATED)
    decreases if s.checkpoint.state.cycles < MAX_REPLAN_CYCLES then MAX_REPLAN_CYCLES - s.checkpoint.state.cycles else 0
  {
    var e1, m := InvalidCycle(revalidating, s, o);
    if m.checkpoint.next == Escalate {
      var e2, u := Ending(revalidating, m, o);
      Chain(revalidating, s, e1, m, 2, e2, u, 1);
      events, t, k := e1 + e2, u, 3;
    } else {
      var e2, u, j := GivingUp(revalidating, m, o);
      Chain(revalidating, s, e1, m, 2, e2, u, j);
      events, t, k := e1 + e2, u, 2 + j;
    }
  }

  // ---- Starting again after an execution. ----

  /** Two legs with any one event between them. */
  lemma Joint(revalidating: bool, s: Sys, a: seq<Event>, m: Sys, j: nat, x: Event, b: seq<Event>, t: Sys, k: nat)
    requires Leads(revalidating, s, a, m, j) && Leads(revalidating, Step(revalidating, m, x), b, t, k)
    ensures t == Run(revalidating, s, a + [x] + b)
    ensures forall e | e in a + [x] + b :: e == x || (e.NodeRun? && e.crash == Survives)
    ensures (x.Elsewhere? ==> QuietEvent(m, x)) ==> Quiet(revalidating, s, a + [x] + b)
    ensures !x.StartAgain? ==> NeverRestarted(a + [x] + b)
  {
    RunSnoc(revalidating, s, a, x);
    RunConcat(revalidating, s, a + [x], b);
    if x.Elsewhere? ==> QuietEvent(m, x) {
      NodeRunsAreQuiet(revalidating, s, [], a);
      assert [] + a == a;
      QuietSnoc(revalidating, s, a, x);
      NodeRunsAreQuiet(revalidating, s, a + [x], b);
    }
  }

  /** Two legs with a restart or a change by others between them. */
  lemma Splice(revalidating: bool, s: Sys, a: seq<Event>, m: Sys, j: nat, x: Event, b: seq<Event>, t: Sys, k: nat)
    requires Leads(revalidating, s, a, m, j) && !x.NodeRun?
    requires Leads(revalidating, Step(revalidating, m, x), b, t, k)
    ensures t == Run(revalidating, s, a + [x] + b)
    ensures NothingLost(s.history) ==> NothingLost(t.history)
    ensures forall e | e in a + [x] + b :: e == x || (e.NodeRun? && e.crash == Survives)
    ensures (x.Elsewhere? ==> QuietEvent(m, x)) ==> Quiet(revalidating, s, a + [x] + b)
    ensures x.Elsewhere? ==> NeverRestarted(a + [x] + b)
  {
    Joint(revalidating, s, a, m, j, x, b, t, k);
  }

  lemma QuietSnoc(revalidating: bool, s: Sys, a: seq<Event>, e: Event)
    requires Quiet(revalidating, s, a)
    requires e.Elsewhere? ==> QuietEvent(Run(revalidating, s, a), e)
    ensures Quiet(revalidating, s, a + [e])
  {
    assert (a + [e])[..|a|] == a;
  }

  lemma {:induction false} NodeRunsAreQuiet(revalidating: bool, s: Sys, a: seq<Event>, b: seq<Event>)
    requires Quiet(revalidating, s, a) && forall e | e in b :: e.NodeRun?
    ensures Quiet(revalidating, s, a + b)
  {
    if b == [] {
      assert a + b == a;
    } else {
      var n := |b| - 1;
      var front := a + b[..n];
      assert b[n] in b && forall e | e in b[..n] :: e in b;
      NodeRunsAreQuiet(revalidating, s, a, b[..n]);
      QuietSnoc(revalidating, s, front, b[n]);
      assert a + b == front + [b[n]];
    }
  }

  /** Escalation does not conserve the world once a process is started again from START instead of being
      continued: the scaling that was executed is never verified nor undone, because the new attempt makes
      other proposals. Nothing else is unusual about the run: no death, no lost ledger write, no interference. */
  lemma StartingAgainLosesTheUndo(revalidating: bool, runId: string, s: Sys, o: Oracle, bad: Oracle, x: string, n: int)
    returns (events: seq<Event>)
    requires CleanStart(s, runId) && Gather(s.world).Some?
    requires x in Gather(s.world).value.services && x in s.world.services
    requires s.world.services[x].restarts < 1 && s.world.services[x].replicas != n
    requires ScalesTo(o, x, n) && o.llm == LowRisk && bad.tool == ""
    ensures var t := Run(revalidating, s, events);
      && (forall e | e in events :: e == StartAgain || (e.NodeRun? && e.crash == Survives))
      && Quiet(revalidating, s, events) && NothingLost(t.history)
      && t.checkpoint.next == End && t.checkpoint.state.status == Some(ESCALATED)
      && CoreOf(t.world) != CoreOf(s.world)
      && x in t.world.services && t.world.services[x].replicas == n
  {
    var e1, u := DiagnosedAndScaled(revalidating, runId, s, o, x, n);
    ScaledStillGathers(s.world, x, n);
    var e2, t, k := DiagnosedAndGivenUp(revalidating, Step(revalidating, u, StartAgain), bad);
    Splice(revalidating, s, e1, u, 5, StartAgain, e2, t, k);
    events := e1 + [StartAgain] + e2;
    ReplicasInCore(t.world, s.world, x);
  }

  lemma DiagnosedAndScaled(revalidating: bool, runId: string, s: Sys, o: Oracle, x: string, n: int)
    returns (events: seq<Event>, t: Sys)
    requires CleanStart(s, runId) && Gather(s.world).Some?
    requires x in Gather(s.world).value.services && x in s.world.services && s.world.services[x].restarts < 1
    requires ScalesTo(o, x, n) && o.llm == LowRisk
    ensures Leads(revalidating, s, events, t, 5)
    ensures t.world == ScaledWorld(s.world, x, n) && t.checkpoint.state.cycles == 0
  {
    var e1, m := Diagnosing(revalidating, s, o);
    var e2, u := ScalingLow(revalidating, m, o, x, n);
    Chain(revalidating, s, e1, m, 1, e2, u, 4);
    events, t := e1 + e2, u;
  }

  lemma DiagnosedAndGivenUp(revalidating: bool, s: Sys, o: Oracle) returns (events: seq<Event>, t: Sys, k: nat)
    requires s.checkpoint.next == Diagnose && Gather(s.world).Some? && o.tool == ""
    ensures Leads(revalidating, s, events, t, k)
    ensures t.world == s.world && t.checkpoint.next == End && t.checkpoint.state.status == Some(ESCALATED)
  {
    var e1, m := Diagnosing(revalidating, s, o);
    var e2, u, j := GivingUp(revalidating, m, o);
    Chain(revalidating, s, e1, m, 1, e2, u, j);
    events, t, k := e1 + e2, u, 1 + j;
  }

  // ---- A replay ignores new parameters. ----

  lemma ScalingUndone(w: World, x: string, n: int)
    requires x in w.services
    ensures Compensate(ScaledWorld(w, x, n), ScaleBack(x, w.services[x].replicas)) == Some(w)
    ensures ScaledWorld(w, x, n).services[x].Status() == w.services[x].Status()
  {
    var back := ScaledWorld(ScaledWorld(w, x, n), x, w.services[x].replicas);
    assert back.services == w.services;
  }

  /** A low-risk scaling that does not help: executed, undone, replanned. */
  lemma FailedScaling(revalidating: bool, s: Sys, o: Oracle, x: string, n: int) returns (events: seq<Event>, t: Sys)
    requires s.checkpoint.next == ProposeAction && ScalesTo(o, x, n) && o.llm == LowRisk
    requires Redundant(s.checkpoint.state, x) && x in s.world.services && s.world.services[x].Status() != Healthy
    requires Key(s.checkpoint.state.runId, ActionOf(o)) !in s.ledger
    ensures Leads(revalidating, s, events, t, 8)
    ensures var c, d := s.checkpoint.state, t.checkpoint.state;
      && At(t, if c.cycles + 1 >= MAX_REPLAN_CYCLES then Escalate else ProposeAction, d, s.world,
            s.ledger[Key(c.runId, ActionOf(o)) := ScaleEntry(s.world, x, n)])
      && d.runId == c.runId && d.cycles == c.cycles + 1 && d.observations == c.observations
      && d.replanContext == Some(if c.decision == Some(Rejected) then HumanRejected
                                 else if c.drift == Some(true) then EnvironmentChanged else VerificationFailed)
  {
    ScaleParses(o, x, n);
    ScalingUndone(s.world, x, n);
    var e1, m := ScalingLow(revalidating, s, o, x, n);
    var e2, u := Failing(revalidating, m, o, s.world);
    Chain(revalidating, s, e1, m, 4, e2, u, 4);
    events, t := e1 + e2, u;
  }

  /** The same action again, after somebody else healed the service: replayed, verified and completed. */
  lemma ReplayedScaling(revalidating: bool, s: Sys, o: Oracle, x: string, n: int, entry: Entry)
    returns (events: seq<Event>, t: Sys)
    requires s.checkpoint.next == ProposeAction && ScalesTo(o, x, n) && o.llm == LowRisk
    requires Redundant(s.checkpoint.state, x) && x in s.world.services && s.world.services[x].Status() == Healthy
    requires var key := Key(s.checkpoint.state.runId, ActionOf(o)); key in s.ledger && s.ledger[key] == entry
    ensures Leads(revalidating, s, events, t, 6)
    ensures At(t, End, t.checkpoint.state, s.world, s.ledger)
    ensures var c := t.checkpoint.state;
      && c.status == Some(COMPLETED) && c.action == Some(ActionOf(o)) && c.params == o.params
      && c.result == Some(entry.result)
  {
    ScaleParses(o, x, n);
    ScaleIsLow(s.checkpoint.state, o, x, n);
    var e1, m := LowRiskCycle(revalidating, s, o, Outcome(s.world, s.ledger, entry, false));
    var e2, u := Verifying(revalidating, m, o, true);
    Chain(revalidating, s, e1, m, 4, e2, u, 1);
    var e3, v := Ending(revalidating, u, o);
    Chain(revalidating, s, e1 + e2, u, 5, e3, v, 1);
    events, t := e1 + e2 + e3, v;
  }

  lemma DiagnosedAndFailed(revalidating: bool, runId: string, s: Sys, o: Oracle, x: string, n: int)
    returns (events: seq<Event>, t: Sys)
    requires CleanStart(s, runId) && Gather(s.world).Some?
    requires x in Gather(s.world).value.services && x in s.world.services
    requires s.world.services[x].restarts < 1 && s.world.services[x].Status() != Healthy
    requires ScalesTo(o, x, n) && o.llm == LowRisk
    ensures Leads(revalidating, s, events, t, 9)
    ensures At(t, ProposeAction, t.checkpoint.state, s.world,
        s.ledger[Key(runId, ActionOf(o)) := ScaleEntry(s.world, x, n)])
    ensures t.checkpoint.state.runId == runId && Redundant(t.checkpoint.state, x)
  {
    var e1, m := Diagnosing(revalidating, s, o);
    var e2, u := FailedScaling(revalidating, m, o, x, n);
    Chain(revalidating, s, e1, m, 1, e2, u, 8);
    events, t := e1 + e2, u;
  }

  /** Somebody else changes the world but not the ledger. */
  lemma Healing(revalidating: bool, s: Sys, healed: World) returns (e: Event, t: Sys)
    requires CoreOf(healed) == CoreOf(s.world)
    ensures e.Elsewhere? && QuietEvent(s, e) && t == Step(revalidating, s, e)
    ensures At(t, s.checkpoint.next, s.checkpoint.state, healed, s.ledger)
  {
    e := Elsewhere(healed, map[]);
    t := Step(revalidating, s, e);
    assert map[] + s.ledger == s.ledger;
  }

  lemma HealedAndReplayed(revalidating: bool, s: Sys, o: Oracle, x: string, n: int, healed: World, entry: Entry)
    returns (e: Event, events: seq<Event>, t: Sys)
    requires s.checkpoint.next == ProposeAction && ScalesTo(o, x, n) && o.llm == LowRisk
    requires Redundant(s.checkpoint.state, x) && x in healed.services && healed.services[x].Status() == Healthy
    requires CoreOf(healed) == CoreOf(s.world)
    requires var key := Key(s.checkpoint.state.runId, ActionOf(o)); key in s.ledger && s.ledger[key] == entry
    ensures e.Elsewhere? && QuietEvent(s, e) && Leads(revalidating, Step(revalidating, s, e), events, t, 6)
    ensures At(t, End, t.checkpoint.state, healed, s.ledger)
    ensures var c := t.checkpoint.state;
      c.status == Some(COMPLETED) && c.params == o.params && c.result == Some(entry.result)
  {
    var mid: Sys;
    e, mid := Healing(revalidating, s, healed);
    events, t := ReplayedScaling(revalidating, mid, o, x, n, entry);
  }

  lemma ReplicasInCore(w: World, v: World, x: string)
    requires x in w.services && x in v.services
    ensures CoreOf(w) == CoreOf(v) ==> w.services[x].replicas == v.services[x].replicas
  {
    assert CoreOf(w).services[x].replicas == w.services[x].replicas;
    assert CoreOf(v).services[x].replicas == v.services[x].replicas;
  }

  /** COMPLETED without effect: scaling to `n` fails and is undone, somebody else repairs the service, and the
      proposal to scale it to `m` instead only replays the first attempt. The run completes, its channels
      hold the parameter `m` and the result of scaling to `n`, and the replica count is the original one. */
  lemma ReplayIgnoresParameters(revalidating: bool, runId: string, s: Sys, o: Oracle, o2: Oracle, x: string, n: int,
      m: int, healed: World)
    returns (events: seq<Event>)
    requires CleanStart(s, runId) && Gather(s.world).Some?
    requires x in Gather(s.world).value.services && x in s.world.services
    requires s.world.services[x].restarts < 1 && s.world.services[x].Status() != Healthy
    requires n != m && ScalesTo(o, x, n) && ScalesTo(o2, x, m) && o.llm == LowRisk && o2.llm == LowRisk
    requires CoreOf(healed) == CoreOf(s.world) && x in healed.services && healed.services[x].Status() == Healthy
    ensures var t := Run(revalidating, s, events);
      && Quiet(revalidating, s, events) && NeverRestarted(events) && NothingLost(t.history)
      && t.checkpoint.next == End && t.checkpoint.state.status == Some(COMPLETED)
      && t.checkpoint.state.params.replicas == Given(m)
      && t.checkpoint.state.result == Some(Result.Scaled(s.world.services[x].replicas, n))
      && CoreOf(t.world) == CoreOf(s.world)
      && x in t.world.services && t.world.services[x].replicas == s.world.services[x].replicas
  {
    var e1, u := DiagnosedAndFailed(revalidating, runId, s, o, x, n);
    var repair, e2, t := HealedAndReplayed(revalidating, u, o2, x, m, healed, ScaleEntry(s.world, x, n));
    ReplicasInCore(healed, s.world, x);
    Splice(revalidating, s, e1, u, 9, repair, e2, t, 6);
    events := e1 + [repair] + e2;
  }

  // ---- Losing the undo with the ledger write. ----

  /** Up to `execute`, low risk. */
  lemma DiagnosedAndPrepared(revalidating: bool, runId: string, s: Sys, o: Oracle, x: string, n: int)
    returns (events: seq<Event>, t: Sys)
    requires CleanStart(s, runId) && Gather(s.world).Some?
    requires x in Gather(s.world).value.services && x in s.world.services && s.world.services[x].restarts < 1
    requires ScalesTo(o, x, n) && o.llm == LowRisk
    ensures Leads(revalidating, s, events, t, 4)
    ensures var c := t.checkpoint.state;
      && At(t, Execute, c, s.world, s.ledger) && c.runId == runId && c.cycles == 0
      && c.action == Some(ActionOf(o)) && c.params == o.params && c.key == Some(Key(runId, ActionOf(o)))
      && c.observations.Some?
  {
    var e1, m := Diagnosing(revalidating, s, o);
    ScaleIsLow(m.checkpoint.state, o, x, n);
    var e2, u := ProposingAndClassifying(revalidating, m, o, LowRisk);
    Chain(revalidating, s, e1, m, 1, e2, u, 2);
    var e3, v := Preparing(revalidating, u, o, ActionOf(o));
    Chain(revalidating, s, e1 + e2, u, 3, e3, v, 1);
    events, t := e1 + e2 + e3, v;
  }

  /** The scaling acts and the process dies before the ledger write. */
  lemma ScalingLost(revalidating: bool, s: Sys, o: Oracle, x: string, n: int) returns (lost: Event, t: Sys)
    requires s.checkpoint.next == Execute && ScalesTo(o, x, n) && x in s.world.services
    requires var c := s.checkpoint.state;
      c.action == Some(ActionOf(o)) && c.params == o.params && c.key.Some? && c.key.value !in s.ledger
    ensures lost == NodeRun(o, BeforeLedger, 0) && t == Step(revalidating, s, lost)
    ensures At(t, Execute, s.checkpoint.state, ScaledWorld(s.world, x, n), s.ledger)
    ensures var key := s.checkpoint.state.key.value; Losses(t.history, key) == Losses(s.history, key) + 1
  {
    lost := NodeRun(o, BeforeLedger, 0);
    t := Step(revalidating, s, lost);
    ScaleParses(o, x, n);
    ActsOnce(revalidating, s, o, BeforeLedger, ActionOf(o), s.checkpoint.state.key.value, ScaleCall(x, n));
  }

  /** The second execution registers the new count as the old one, so its undo leaves the scaling in force. */
  lemma ScaledAgainAndGivenUp(revalidating: bool, s: Sys, o: Oracle, bad: Oracle, x: string, n: int)
    returns (events: seq<Event>, t: Sys, k: nat)
    requires s.checkpoint.next == Execute && ScalesTo(o, x, n) && x in s.world.services
    requires s.world.services[x].replicas == n && s.world.services[x].Status() != Healthy
    requires var c := s.checkpoint.state;
      && c.action == Some(ActionOf(o)) && c.params == o.params && c.key.Some? && c.key.value !in s.ledger
      && c.observations.Some? && c.cycles == 0
    requires bad.tool == ""
    ensures Leads(revalidating, s, events, t, k)
    ensures t.world == s.world && t.checkpoint.next == End && t.checkpoint.state.status == Some(ESCALATED)
    ensures s.checkpoint.state.key.value in t.ledger
  {
    ScaleParses(o, x, n);
    var out := SameReplicas(s.world, s.ledger, s.checkpoint.state.key.value, x, n);
    assert s.world.services[x := s.world.services[x]] == s.world.services;
    var e1, m := Executing(revalidating, s, o, ActionOf(o), s.checkpoint.state.key.value, out);
    var e2, u := Failing(revalidating, m, o, s.world);
    Chain(revalidating, s, e1, m, 1, e2, u, 4);
    var e3, v, j := GivingUp(revalidating, u, bad);
    Chain(revalidating, s, e1 + e2, u, 5, e3, v, j);
    events, t, k := e1 + e2 + e3, v, 5 + j;
  }

  /** From `execute` on. */
  lemma LostAndGivenUp(revalidating: bool, m: Sys, o: Oracle, bad: Oracle, x: string, n: int)
    returns (lost: Event, events: seq<Event>, t: Sys, k: nat)
    requires m.checkpoint.next == Execute && ScalesTo(o, x, n) && x in m.world.services
    requires m.world.services[x].Status() != Healthy
    requires var c := m.checkpoint.state;
      && c.action == Some(ActionOf(o)) && c.params == o.params && c.key.Some? && c.key.value !in m.ledger
      && c.observations.Some? && c.cycles == 0
    requires bad.tool == ""
    ensures lost == NodeRun(o, BeforeLedger, 0) && Leads(revalidating, Step(revalidating, m, lost), events, t, k)
    ensures t.world == ScaledWorld(m.world, x, n) && t.checkpoint.next == End
    ensures t.checkpoint.state.status == Some(ESCALATED)
    ensures var key := m.checkpoint.state.key.value;
      key in t.ledger && Losses(t.history, key) == Losses(m.history, key) + 1
  {
    var u;
    lost, u := ScalingLost(revalidating, m, o, x, n);
    events, t, k := ScaledAgainAndGivenUp(revalidating, u, o, bad, x, n);
    SurvivorsLoseNothing(revalidating, u, events, m.checkpoint.state.key.value);
  }

  /** One death between acting and the ledger write, continued from the checkpoint and without any restart or
      interference: a new run acts twice under one key, and escalates with the scaling still in force. */
  lemma LostWriteLosesTheUndo(revalidating: bool, runId: string, s: Sys, o: Oracle, bad: Oracle, x: string, n: int)
    returns (events: seq<Event>)
    requires CleanStart(s, runId) && Gather(s.world).Some?
    requires x in Gather(s.world).value.services && x in s.world.services
    requires s.world.services[x].restarts < 1 && s.world.services[x].Status() != Healthy
    requires s.world.services[x].replicas != n
    requires ScalesTo(o, x, n) && o.llm == LowRisk && bad.tool == ""
    ensures var t := Run(revalidating, s, events);
      && (forall e | e in events :: e.NodeRun? && (e.crash == Survives || e == NodeRun(o, BeforeLedger, 0)))
      && Quiet(revalidating, s, events) && NeverRestarted(events)
      && t.checkpoint.next == End && t.checkpoint.state.status == Some(ESCALATED)
      && CoreOf(t.world) != CoreOf(s.world)
      && Performances(t.history, Key(runId, ActionOf(o))) == 2 && Losses(t.history, Key(runId, ActionOf(o))) == 1
  {
    var e1, m := DiagnosedAndPrepared(revalidating, runId, s, o, x, n);
    var lost, e2, t, k := LostAndGivenUp(revalidating, m, o, bad, x, n);
    Joint(revalidating, s, e1, m, 4, lost, e2, t, k);
    events := e1 + [lost] + e2;
    ReplicasInCore(t.world, s.world, x);
    SurvivorsLoseNothing(revalidating, s, e1, Key(runId, ActionOf(o)));
    LostOnceActsTwice(revalidating, runId, s, events, Key(runId, ActionOf(o)));
  }

  lemma LostOnceActsTwice(revalidating: bool, runId: string, s: Sys, events: seq<Event>, key: string)
    requires Fresh(s, runId) && key !in s.ledger && forall e | e in events :: e.NodeRun?
    requires var t := Run(revalidating, s, events); key in t.ledger && Losses(t.history, key) == 1
    ensures Performances(Run(revalidating, s, events).history, key) == 2
  {
    AtMostOnceExactly(revalidating, runId, s, events, key);
  }

  // ---- The replan reason and the thrashing floor. ----

  /** A proposal rejected by the human. */
  lemma RejectedCycle(revalidating: bool, s: Sys, o: Oracle) returns (events: seq<Event>, t: Sys)
    requires s.checkpoint.next == ProposeAction && Proposable(s.checkpoint.state, o)
      && PolicyTier(s.checkpoint.state, o) != LowRisk
    requires o.decision == Rejected && o.edited.None? && s.checkpoint.state.cycles == 0
    ensures Leads(revalidating, s, events, t, 5)
    ensures var c, d := s.checkpoint.state, t.checkpoint.state;
      && At(t, ProposeAction, d, s.world, s.ledger) && d.runId == c.runId && d.cycles == 1
      && d.observations == c.observations && d.decision == Some(Rejected) && d.replanContext == Some(HumanRejected)
  {
    var e1, m := Asking(revalidating, s, o);
    var e2, u := Replanning(revalidating, m, o);
    Chain(revalidating, s, e1, m, 4, e2, u, 1);
    events, t := e1 + e2, u;
  }

  /** The wrong reason: after a rejection, a low-risk action that fails verification and is rolled back
      is reported to the reasoner as rejected by a human. */
  lemma FailureBlamedOnTheHuman(revalidating: bool, runId: string, s: Sys, o: Oracle, o2: Oracle, x: string, n: int)
    returns (events: seq<Event>, t: Sys)
    requires CleanStart(s, runId) && Gather(s.world).Some?
    requires x in Gather(s.world).value.services && x in s.world.services
    requires s.world.services[x].restarts < 1 && s.world.services[x].Status() != Healthy
    requires ScalesTo(o, x, n) && o.llm == MediumRisk && o.decision == Rejected && o.edited.None?
    requires ScalesTo(o2, x, n) && o2.llm == LowRisk
    ensures Leads(revalidating, s, events, t, 14)
    ensures
      && t.checkpoint.next == ProposeAction && t.checkpoint.state.cycles == 2
      && Key(runId, ActionOf(o2)) in t.ledger
      && t.checkpoint.state.replanContext == Some(HumanRejected)
  {
    var e1, p := Diagnosing(revalidating, s, o);
    ScaleIsLow(p.checkpoint.state, o, x, n);
    var e2, u := RejectedCycle(revalidating, p, o);
    Chain(revalidating, s, e1, p, 1, e2, u, 5);
    var e3, v := FailedScaling(revalidating, u, o2, x, n);
    Chain(revalidating, s, e1 + e2, u, 6, e3, v, 8);
    events, t := e1 + e2 + e3, v;
  }

  function RestartedWorld(w: World, x: string): World
    requires x in w.services
  {
    w.(services := w.services[x := w.services[x].Restarted()])
  }

  lemma RestartParses(o: Oracle, x: string)
    requires o.tool == ToolName(RestartService) && o.target == x
    ensures Parse(ActionOf(o)) == Some(Parsed(Some(RestartService), x))
    ensures ParseCall(ActionOf(o), o.params) == Some(RestartCall(x))
  {
    ToolNameParses(RestartService, x);
  }

  lemma FirstRestartIsLow(c: AgentState, o: Oracle, x: string)
    requires o.tool == ToolName(RestartService) && o.target == x && o.llm == LowRisk
    requires c.observations.Some? && x in c.observations.value.services
      && c.observations.value.services[x].restarts == 0
    ensures Proposable(c, o) && PolicyTier(c, o) == LowRisk
  {
    RestartParses(o, x);
  }

  lemma RestartOutcome(w: World, ledger: Ledger, o: Oracle, x: string, key: string) returns (out: Outcome)
    requires o.tool == ToolName(RestartService) && o.target == x && x in w.services && key !in ledger
    ensures ExecuteAction(w, ledger, ActionOf(o), o.params, key) == Some(out)
    ensures out.world == RestartedWorld(w, x) && out.entry.compensation == Noop
    ensures out.entry.result == Result.Restarted(w.services[x].restarts + 1, w.services[x].Restarted().Status())
    ensures VerifyAction(out.world, ActionOf(o), out.entry.result)
      == Some(w.services[x].Restarted().Status() == Healthy)
  {
    RestartParses(o, x);
    var after := w.services[x].Restarted();
    var entry := Entry(RestartCall(x), Result.Restarted(after.restarts, after.Status()), Noop);
    out := Outcome(RestartedWorld(w, x), ledger[key := entry], entry, true);
  }

  /** The first attempt, up to a `verify` that will fail. */
  lemma DiagnosedAndRestarted(revalidating: bool, runId: string, s: Sys, o: Oracle, x: string)
    returns (events: seq<Event>, t: Sys)
    requires CleanStart(s, runId) && Gather(s.world).Some?
    requires x in Gather(s.world).value.services && x in s.world.services
    requires s.world.services[x].replicas < MIN_REDUNDANT_REPLICAS && s.world.services[x].restarts == 0
    requires s.world.services[x].Restarted().Status() != Healthy
    requires o.tool == ToolName(RestartService) && o.target == x && o.llm == LowRisk
    ensures Leads(revalidating, s, events, t, 5)
    ensures var c := t.checkpoint.state;
      && t.checkpoint.next == Verify && t.world == RestartedWorld(s.world, x)
      && c.cycles == 0 && c.action == Some(ActionOf(o)) && c.result.Some? && c.compensation == Some(Noop)
      && VerifyAction(t.world, ActionOf(o), c.result.value) == Some(false)
      && Proposable(c, o) && PolicyTier(c, o) == LowRisk
  {
    var out := RestartOutcome(s.world, s.ledger, o, x, Key(runId, ActionOf(o)));
    RestartParses(o, x);
    var e1, m := Diagnosing(revalidating, s, o);
    FirstRestartIsLow(m.checkpoint.state, o, x);
    var e2, u := LowRiskCycle(revalidating, m, o, out);
    Chain(revalidating, s, e1, m, 1, e2, u, 4);
    SameSweepSameTier(m.checkpoint.state, u.checkpoint.state, o);
    events, t := e1 + e2, u;
  }

  /** Without a new sweep the verdict on the same proposal stays. */
  lemma SameSweepSameTier(c: AgentState, d: AgentState, o: Oracle)
    requires d.observations == c.observations && Proposable(c, o) && PolicyTier(c, o) == LowRisk
    ensures Proposable(d, o) && PolicyTier(d, o) == LowRisk
  {
  }

  /** The low-risk loop: a sole instance is restarted without effect and the restart is proposed again. The
      policy still reads the sweep of `diagnose`, so the model's low stands although the world has
      counted the run's own restart. */
  lemma LowRiskLoopMissesItsRestart(revalidating: bool, runId: string, s: Sys, o: Oracle, x: string)
    returns (events: seq<Event>, t: Sys)
    requires CleanStart(s, runId) && Gather(s.world).Some?
    requires x in Gather(s.world).value.services && x in s.world.services
    requires s.world.services[x].replicas < MIN_REDUNDANT_REPLICAS && s.world.services[x].restarts == 0
    requires s.world.services[x].Restarted().Status() != Healthy
    requires o.tool == ToolName(RestartService) && o.target == x && o.llm == LowRisk
    ensures Leads(revalidating, s, events, t, 11)
    ensures
      && t.checkpoint.next == PrepareExecution && t.checkpoint.state.cycles == 1
      && t.checkpoint.state.action == Some(ActionOf(o)) && t.checkpoint.state.tier == Some(LowRisk)
      && x in t.world.services && t.world.services[x].restarts == 1
      && t.world.services[x].replicas < MIN_REDUNDANT_REPLICAS
  {
    var e1, m := DiagnosedAndRestarted(revalidating, runId, s, o, x);
    var e2, u := Failing(revalidating, m, o, RestartedWorld(s.world, x));
    Chain(revalidating, s, e1, m, 5, e2, u, 4);
    SameSweepSameTier(m.checkpoint.state, u.checkpoint.state, o);
    var e3, v := ProposingAndClassifying(revalidating, u, o, LowRisk);
    Chain(revalidating, s, e1 + e2, u, 9, e3, v, 2);
    events, t := e1 + e2 + e3, v;
  }

  // ---- The bounds are tight. ----

  /** Scaling a sick service to the replicas it has: never changes anything, never helps. */
  ghost predicate Futile(s: Sys, o: Oracle, x: string) {
    && s.checkpoint.next == ProposeAction && Gather(s.world).Some? && s.checkpoint.state.observations == Gather(s.world)
    && Redundant(s.checkpoint.state, x) && x in s.world.services && s.world.services[x].Status() != Healthy
    && ScalesTo(o, x, s.world.services[x].replicas)
    && var key := Key(s.checkpoint.state.runId, ActionOf(o));
    key in s.ledger ==> s.ledger[key] == ScaleEntry(s.world, x, s.world.services[x].replicas)
  }

  lemma FutileOutcome(s: Sys, o: Oracle, x: string) returns (out: Outcome)
    requires Futile(s, o, x)
    ensures ExecuteAction(s.world, s.ledger, ActionOf(o), o.params, Key(s.checkpoint.state.runId, ActionOf(o)))
      == Some(out)
    ensures out.world == s.world && out.entry == ScaleEntry(s.world, x, s.world.services[x].replicas)
    ensures out.ledger == s.ledger[Key(s.checkpoint.state.runId, ActionOf(o)) := out.entry]
    ensures VerifyAction(s.world, ActionOf(o), out.entry.result) == Some(false)
    ensures Compensate(s.world, out.entry.compensation) == Some(s.world)
  {
    var n := s.world.services[x].replicas;
    assert s.world.services[x := s.world.services[x]] == s.world.services;
    ScaleParses(o, x, n);
    out := SameReplicas(s.world, s.ledger, Key(s.checkpoint.state.runId, ActionOf(o)), x, n);
  }

  /** Scaling to the replicas a service has, for the first time or replayed. */
  lemma SameReplicas(w: World, ledger: Ledger, key: string, x: string, n: int) returns (out: Outcome)
    requires x in w.services && w.services[x].replicas == n
    requires key in ledger ==> ledger[key] == ScaleEntry(w, x, n)
    ensures RunIdempotent(w, ledger, key, ScaleCall(x, n)) == Some(out)
    ensures out.world == w && out.entry == ScaleEntry(w, x, n) && out.ledger == ledger[key := out.entry]
  {
    var entry := ScaleEntry(w, x, n);
    assert w.services[x := w.services[x]] == w.services;
    if key in ledger {
      assert ledger[key := entry] == ledger;
    }
    out := Outcome(w, ledger[key := entry], entry, key !in ledger);
  }

  /** A futile cycle up to its failing verification. */
  lemma FutileToVerify(s: Sys, o: Oracle, x: string, k: nat, out: Outcome) returns (events: seq<Event>, t: Sys)
    requires Futile(s, o, x)
    requires if k == 7 then o.llm == MediumRisk && o.decision == Approved && o.edited.None?
             else k == 4 && o.llm == LowRisk
    requires ExecuteAction(s.world, s.ledger, ActionOf(o), o.params, Key(s.checkpoint.state.runId, ActionOf(o)))
      == Some(out)
    ensures Leads(true, s, events, t, k)
    ensures var c := t.checkpoint.state;
      && At(t, Verify, c, out.world, out.ledger)
      && c.runId == s.checkpoint.state.runId && c.cycles == s.checkpoint.state.cycles
      && c.observations == s.checkpoint.state.observations && c.action == Some(ActionOf(o))
      && c.result == Some(out.entry.result) && c.compensation == Some(out.entry.compensation)
  {
    ScaleIsLow(s.checkpoint.state, o, x, s.world.services[x].replicas);
    if k == 7 {
      events, t := ApprovedCycle(s, o, out);
    } else {
      events, t := LowRiskCycle(true, s, o, out);
    }
  }

  /** One futile cycle: 11 node runs through approval and revalidation, 8 without a sleep. */
  lemma FutileCycle(s: Sys, o: Oracle, x: string, k: nat) returns (events: seq<Event>, t: Sys)
    requires Futile(s, o, x)
    requires if k == 11 then o.llm == MediumRisk && o.decision == Approved && o.edited.None?
             else k == 8 && o.llm == LowRisk
    ensures Leads(true, s, events, t, k)
    ensures t.checkpoint.state.cycles == s.checkpoint.state.cycles + 1
    ensures t.checkpoint.next == if t.checkpoint.state.cycles >= MAX_REPLAN_CYCLES then Escalate else ProposeAction
    ensures t.checkpoint.next == ProposeAction ==> Futile(t, o, x)
  {
    var out := FutileOutcome(s, o, x);
    var e1, m := FutileToVerify(s, o, x, k - 4, out);
    var e2, u := Failing(true, m, o, s.world);
    Chain(true, s, e1, m, k - 4, e2, u, 4);
    events, t := e1 + e2, u;
  }

  lemma TwoFutileCycles(s: Sys, o: Oracle, x: string, k: nat) returns (events: seq<Event>, t: Sys)
    requires Futile(s, o, x) && s.checkpoint.state.cycles == 0
    requires if k == 11 then o.llm == MediumRisk && o.decision == Approved && o.edited.None?
             else k == 8 && o.llm == LowRisk
    ensures Leads(true, s, events, t, k + k)
    ensures Futile(t, o, x) && t.checkpoint.state.cycles == 2
  {
    var e1, m := FutileCycle(s, o, x, k);
    var e2, u := FutileCycle(m, o, x, k);
    Chain(true, s, e1, m, k, e2, u, k);
    events, t := e1 + e2, u;
  }

  /** Futile cycles until the counter reaches its limit. */
  lemma ThreeFutileCycles(s: Sys, o: Oracle, x: string, k: nat) returns (events: seq<Event>, t: Sys)
    requires Futile(s, o, x) && s.checkpoint.state.cycles == 0
    requires if k == 11 then o.llm == MediumRisk && o.decision == Approved && o.edited.None?
             else k == 8 && o.llm == LowRisk
    ensures Leads(true, s, events, t, k + k + k)
    ensures t.checkpoint.next == Escalate
  {
    var e1, m := TwoFutileCycles(s, o, x, k);
    var e2, u := FutileCycle(m, o, x, k);
    Chain(true, s, e1, m, k + k, e2, u, k);
    events, t := e1 + e2, u;
  }

  /** The bounds of `RunsAreShort` are met: an approved futile action, proposed again and again, takes
      exactly 35 node runs, and 26 when it is low risk and the run never sleeps. */
  lemma BoundsAreTight(runId: string, s: Sys, o: Oracle, x: string) returns (events: seq<Event>, t: Sys)
    requires CleanStart(s, runId) && Gather(s.world).Some?
    requires x in Gather(s.world).value.services && x in s.world.services
    requires s.world.services[x].restarts < 1 && s.world.services[x].Status() != Healthy
    requires ScalesTo(o, x, s.world.services[x].replicas)
    requires o.llm == LowRisk || (o.llm == MediumRisk && o.decision == Approved && o.edited.None?)
    ensures Leads(true, s, events, t, if o.llm == LowRisk then 26 else 35)
    ensures t.checkpoint.next == End && t.checkpoint.state.status == Some(ESCALATED)
  {
    var k := if o.llm == LowRisk then 8 else 11;
    var e1, m := Diagnosing(true, s, o);
    var e2, u := ThreeFutileCycles(m, o, x, k);
    Chain(true, s, e1, m, 1, e2, u, k + k + k);
    var e3, v := Ending(true, u, o);
    Chain(true, s, e1 + e2, u, 1 + (k + k + k), e3, v, 1);
    events, t := e1 + e2 + e3, v;
  }

  // ---- The situations the witnesses ask for exist. ----

  /** The services as the sandbox builds them, except that every one with a disk is `disk`. */
  function Built(names: seq<string>, disk: Service): map<string, Service> {
    map n | n in names :: if HasDisk(n) then disk else NewService(false, 1)
  }

  lemma BuiltGathers(names: seq<string>, disk: Service, table: Table, x: string)
    requires disk.hasDisk && x in names && HasDisk(x)
    ensures var w := World(Built(names, disk), table);
      && GatherFrom(w, names).Some? && x in GatherFrom(w, names).value.services && x in w.services
        && w.services[x] == disk
  {
  }

  /** A full disk is sick and stays sick through a restart; cleaned, it is as new. */
  lemma FullDisk() returns (sick: Service)
    ensures sick == After(NewService(true, 1), InjectFault(DiskFull, HighRate))
    ensures sick.hasDisk && sick.replicas == 1 && sick.restarts == 0
    ensures sick.Status() != Healthy && sick.Restarted().Status() != Healthy
    ensures After(sick, CleanDisk) == NewService(true, 1) && NewService(true, 1).Status() == Healthy
    ensures ServiceCoreOf(sick) == ServiceCoreOf(NewService(true, 1))
  {
    sick := NewService(true, 1).(disk := Magnitude(HighRate), faults := [DiskFull]);
    assert [] + [DiskFull] == [DiskFull];
  }

  lemma BuiltCore(names: seq<string>, a: Service, b: Service, table: Table)
    requires ServiceCoreOf(a) == ServiceCoreOf(b) && b == NewService(true, 1)
    ensures CoreOf(World(Built(names, a), table)) == CoreOf(World(Built(names, b), table))
    ensures GoodHistories(CoreOf(World(Built(names, a), table)))
  {
    ResetHasRep(false, 1);
    ResetHasRep(true, 1);
  }

  /** A new run over the sandbox as built, with a full disk injected, and the same sandbox after its disk was
      cleaned: what the witnesses above ask for, and with them the hypotheses of the theorems over runs. */
  lemma SickSandbox(runId: string, table: Table) returns (s: Sys, healed: World, x: string)
    ensures x == "service_c" && x in KNOWN_SERVICES
    ensures var sick := After(NewService(true, 1), InjectFault(DiskFull, HighRate));
      && s.world == World(Built(KNOWN_SERVICES, sick), table)
      && healed == World(Built(KNOWN_SERVICES, After(sick, CleanDisk)), table)
    ensures CleanStart(s, runId) && Gather(s.world).Some?
    ensures x in Gather(s.world).value.services && x in s.world.services && x in healed.services
    ensures var sick := s.world.services[x];
      && sick.restarts == 0 && sick.replicas == 1 && sick.Status() != Healthy && sick.Restarted().Status() != Healthy
    ensures CoreOf(healed) == CoreOf(s.world) && healed.services[x].Status() == Healthy
  {
    var sick := FullDisk();
    x := DiskService();
    s := Sys(Checkpoint(Diagnose, Workflow.NewThread(runId)), World(Built(KNOWN_SERVICES, sick), table), map[], [], []);
    healed := World(Built(KNOWN_SERVICES, NewService(true, 1)), table);
    BuiltGathers(KNOWN_SERVICES, sick, table, x);
    BuiltGathers(KNOWN_SERVICES, NewService(true, 1), table, x);
    BuiltCore(KNOWN_SERVICES, sick, NewService(true, 1), table);
  }

  lemma DiskService() returns (x: string)
    ensures x == "service_c" && x in KNOWN_SERVICES && HasDisk(x)
  {
    x := "service_c";
    assert x == KNOWN_SERVICES[2];
  }
}
