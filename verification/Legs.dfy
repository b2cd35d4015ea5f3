/** Legs: a few surviving node runs under one oracle, from which whole runs are chained. */
module Legs {
  import opened Options
  import opened Actions
  import opened Tools
  import opened Observations
  import opened Workflow
  import opened Durable
  import opened Termination
  import opened Conservation

  function Go(o: Oracle): Event { NodeRun(o, Survives, 0) }

  // ---- Legs. ----

  /** `events` lead from `s` to `t`, committing `k` nodes and losing no ledger write. */
  ghost predicate Leads(revalidating: bool, s: Sys, events: seq<Event>, t: Sys, k: nat) {
    && t == Run(revalidating, s, events)
    && Commits(t.history) == Commits(s.history) + k
    && (NothingLost(s.history) ==> NothingLost(t.history))
    && (forall e | e in events :: e.NodeRun? && e.crash == Survives)
  }

  /** Where a system stands, with which channels, in which world and with which ledger. */
  ghost predicate At(s: Sys, next: Node, c: AgentState, w: World, ledger: Ledger) {
    s.checkpoint == Checkpoint(next, c) && s.world == w && s.ledger == ledger
  }

  lemma Chain(revalidating: bool, s: Sys, a: seq<Event>, m: Sys, j: nat, b: seq<Event>, t: Sys, k: nat)
    requires Leads(revalidating, s, a, m, j) && Leads(revalidating, m, b, t, k)
    ensures Leads(revalidating, s, a + b, t, j + k)
  {
    RunConcat(revalidating, s, a, b);
  }

  /** One surviving node run, from its body. */
  lemma Leg(revalidating: bool, s: Sys, o: Oracle, body: Body) returns (events: seq<Event>, t: Sys)
    requires s.checkpoint.next != End
    requires RunBody(s.checkpoint, s.world, s.ledger, o) == Some(body)
    ensures Leads(revalidating, s, events, t, 1)
    ensures At(t, Next(revalidating, s.checkpoint.next, body.after), body.after, body.world, body.ledger)
  {
    events, t := [Go(o)], Step(revalidating, s, Go(o));
    assert [] + [Go(o)] == [Go(o)] && Run(revalidating, s, []) == s;
    RunSnoc(revalidating, s, [], Go(o));
    OneCommit(revalidating, s, o);
  }

  lemma OneCommit(revalidating: bool, s: Sys, o: Oracle)
    requires s.checkpoint.next != End && RunBody(s.checkpoint, s.world, s.ledger, o).Some?
    ensures var t := Step(revalidating, s, Go(o));
      && Commits(t.history) == Commits(s.history) + 1
      && (NothingLost(s.history) ==> NothingLost(t.history))
  {
    var g := Added(revalidating, s, Go(o));
    var n := |g| - 1;
    CommitLast(s.history, g[..n], g[n]);
    assert g == g[..n] + [g[n]];
  }

  lemma CommitLast(h: seq<Fact>, calls: seq<Fact>, f: Fact)
    requires f.Committed? && forall x | x in calls :: x.ToolCalled? && x.recorded
    ensures Commits(h + (calls + [f])) == Commits(h) + 1
    ensures NothingLost(h) ==> NothingLost(h + (calls + [f]))
  {
    CountsOfFacts(h, calls);
    CountsOfCommit(h + calls, f);
    assert h + (calls + [f]) == h + calls + [f];
  }

  function ActionOf(o: Oracle): string { Join(o.tool, o.target) }

  /** The proposal `o` makes is valid in the sweep the run holds. */
  ghost predicate Proposable(c: AgentState, o: Oracle) {
    && c.observations.Some? && Parse(ActionOf(o)).Some?
    && Parse(ActionOf(o)).value.tool.Some?
    && Validate(c.observations.value, Parse(ActionOf(o)).value).None?
  }

  ghost function PolicyTier(c: AgentState, o: Oracle): Tier
    requires Proposable(c, o)
  {
    var parsed := Parse(ActionOf(o)).value;
    ApplyPolicy(parsed.tool, o.llm, Situational(c.observations.value, parsed))
  }

  /** What a cycle leaves alone. */
  ghost predicate SameRun(c: AgentState, d: AgentState) {
    d.runId == c.runId && d.cycles == c.cycles && d.decision == c.decision && d.drift == c.drift
      && d.observations == c.observations
  }

  lemma Diagnosing(revalidating: bool, s: Sys, o: Oracle) returns (events: seq<Event>, t: Sys)
    requires s.checkpoint.next == Diagnose && Gather(s.world).Some?
    ensures Leads(revalidating, s, events, t, 1)
    ensures At(t, ProposeAction, OnDiagnose(s.checkpoint.state, Gather(s.world).value, o.summary), s.world, s.ledger)
  {
    var after := OnDiagnose(s.checkpoint.state, Gather(s.world).value, o.summary);
    events, t := Leg(revalidating, s, o, Body(s.world, s.ledger, None, after));
  }

  lemma Proposing(revalidating: bool, s: Sys, o: Oracle) returns (events: seq<Event>, t: Sys)
    requires s.checkpoint.next == ProposeAction && Proposable(s.checkpoint.state, o)
    ensures Leads(revalidating, s, events, t, 1)
    ensures var c := t.checkpoint.state;
      && At(t, ClassifyRisk, c, s.world, s.ledger) && SameRun(s.checkpoint.state, c)
      && c.action == Some(ActionOf(o)) && c.params == o.params && c.invalid.None?
      && c.fingerprint == Fingerprint(c.observations.value, ActionOf(o))
  {
    var after := OnPropose(s.checkpoint.state, o.tool, o.target, o.params).value;
    events, t := Leg(revalidating, s, o, Body(s.world, s.ledger, None, after));
  }

  lemma Classifying(revalidating: bool, s: Sys, o: Oracle, tier: Tier) returns (events: seq<Event>, t: Sys)
    requires s.checkpoint.next == ClassifyRisk && s.checkpoint.state.action == Some(ActionOf(o))
    requires Proposable(s.checkpoint.state, o) && PolicyTier(s.checkpoint.state, o) == tier
    ensures Leads(revalidating, s, events, t, 1)
    ensures var c := t.checkpoint.state;
      && At(t, if tier == LowRisk then PrepareExecution else MarkAwaiting, c, s.world, s.ledger)
      && SameRun(s.checkpoint.state, c) && c.action == s.checkpoint.state.action
      && c.params == s.checkpoint.state.params
      && c.invalid == s.checkpoint.state.invalid && c.fingerprint == s.checkpoint.state.fingerprint
      && c.tier == Some(tier)
  {
    var after := OnClassify(s.checkpoint.state, o.llm).value;
    events, t := Leg(revalidating, s, o, Body(s.world, s.ledger, None, after));
  }

  lemma Preparing(revalidating: bool, s: Sys, o: Oracle, a: string) returns (events: seq<Event>, t: Sys)
    requires s.checkpoint.next == PrepareExecution && s.checkpoint.state.action == Some(a)
    ensures Leads(revalidating, s, events, t, 1)
    ensures At(t, Execute,
        s.checkpoint.state.(status := Some(EXECUTING), key := Some(Key(s.checkpoint.state.runId, a))),
               s.world, s.ledger)
  {
    var after := OnPrepare(s.checkpoint.state).value;
    events, t := Leg(revalidating, s, o, Body(s.world, s.ledger, None, after));
  }

  lemma Executing(revalidating: bool, s: Sys, o: Oracle, a: string, key: string, out: Outcome)
    returns (events: seq<Event>, t: Sys)
    requires s.checkpoint.next == Execute && s.checkpoint.state.action == Some(a) && s.checkpoint.state.key == Some(key)
    requires ExecuteAction(s.world, s.ledger, a, s.checkpoint.state.params, key) == Some(out)
    ensures Leads(revalidating, s, events, t, 1)
    ensures At(t, Verify, s.checkpoint.state.(status := Some(EXECUTING), result := Some(out.entry.result),
                                              compensation := Some(out.entry.compensation)), out.world, out.ledger)
  {
    var after := s.checkpoint.state.(status := Some(EXECUTING), result := Some(out.entry.result),
                                     compensation := Some(out.entry.compensation));
    events, t := Leg(revalidating, s, o,
      Body(out.world, out.ledger, Some(ToolCalled(a, key, out.performed, true, out.entry)), after));
  }

  lemma Verifying(revalidating: bool, s: Sys, o: Oracle, passed: bool) returns (events: seq<Event>, t: Sys)
    requires s.checkpoint.next == Verify && s.checkpoint.state.action.Some? && s.checkpoint.state.result.Some?
    requires VerifyAction(s.world, s.checkpoint.state.action.value, s.checkpoint.state.result.value) == Some(passed)
    ensures Leads(revalidating, s, events, t, 1)
    ensures At(t, if passed then Complete else RollingBack,
               s.checkpoint.state.(status := Some(VERIFYING), verified := Some(passed)), s.world, s.ledger)
  {
    events, t := Leg(revalidating, s, o,
      Body(s.world, s.ledger, None, s.checkpoint.state.(status := Some(VERIFYING), verified := Some(passed))));
  }

  lemma Undoing(revalidating: bool, s: Sys, o: Oracle, w: World) returns (events: seq<Event>, t: Sys)
    requires s.checkpoint.next == RollingBack && s.checkpoint.state.compensation.Some?
    requires Compensate(s.world, s.checkpoint.state.compensation.value) == Some(w)
    ensures Leads(revalidating, s, events, t, 1)
    ensures At(t, RolledBack, s.checkpoint.state.(status := Some(ROLLING_BACK)), w, s.ledger)
  {
    events, t := Leg(revalidating, s, o, Body(w, s.ledger, None, s.checkpoint.state.(status := Some(ROLLING_BACK))));
  }

  lemma Undone(revalidating: bool, s: Sys, o: Oracle) returns (events: seq<Event>, t: Sys)
    requires s.checkpoint.next == RolledBack
    ensures Leads(revalidating, s, events, t, 1)
    ensures At(t, Replan, s.checkpoint.state.(status := Some(ROLLED_BACK)), s.world, s.ledger)
  {
    events, t := Leg(revalidating, s, o,
        Body(s.world, s.ledger, None, s.checkpoint.state.(status := Some(ROLLED_BACK))));
  }

  lemma Replanning(revalidating: bool, s: Sys, o: Oracle) returns (events: seq<Event>, t: Sys)
    requires s.checkpoint.next == Replan
    ensures Leads(revalidating, s, events, t, 1)
    ensures var c := s.checkpoint.state;
      At(t, if c.cycles + 1 >= MAX_REPLAN_CYCLES then Escalate else ProposeAction,
         c.(status := Some(REPLANNING), cycles := c.cycles + 1, replanContext := Some(ReplanReason(c))),
         s.world, s.ledger)
  {
    var c := s.checkpoint.state;
    events, t := Leg(revalidating, s, o, Body(s.world, s.ledger, None,
      c.(status := Some(REPLANNING), cycles := c.cycles + 1, replanContext := Some(ReplanReason(c)))));
  }

  lemma Ending(revalidating: bool, s: Sys, o: Oracle) returns (events: seq<Event>, t: Sys)
    requires s.checkpoint.next == Escalate || s.checkpoint.next == Complete
    ensures Leads(revalidating, s, events, t, 1)
    ensures var final := if s.checkpoint.next == Escalate then ESCALATED else COMPLETED;
      At(t, End, s.checkpoint.state.(status := Some(final), finalState := Some(final)), s.world, s.ledger)
  {
    var final := if s.checkpoint.next == Escalate then ESCALATED else COMPLETED;
    events, t := Leg(revalidating, s, o,
      Body(s.world, s.ledger, None, s.checkpoint.state.(status := Some(final), finalState := Some(final))));
  }

  /** To sleep, and woken by a decision without an edit. */
  lemma Deciding(revalidating: bool, s: Sys, o: Oracle) returns (events: seq<Event>, t: Sys)
    requires s.checkpoint.next == MarkAwaiting && o.edited.None?
    ensures Leads(revalidating, s, events, t, 2)
    ensures
      var c := s.checkpoint.state.(status := Some(AWAITING_APPROVAL), decision := Some(o.decision),
        approver := o.approver);
      At(t, Next(revalidating, AwaitApproval, c), c, s.world, s.ledger)
  {
    var b := s.checkpoint.state.(status := Some(AWAITING_APPROVAL));
    var e1, m := Leg(revalidating, s, o, Body(s.world, s.ledger, None, b));
    var e2, u := Leg(revalidating, m, o,
      Body(s.world, s.ledger, None, b.(decision := Some(o.decision), approver := o.approver)));
    Chain(revalidating, s, e1, m, 1, e2, u, 1);
    events, t := e1 + e2, u;
  }

  lemma Rechecking(s: Sys, o: Oracle, a: string) returns (events: seq<Event>, t: Sys)
    requires s.checkpoint.next == Revalidate && s.checkpoint.state.action == Some(a)
    requires Gather(s.world).Some? && Fingerprint(Gather(s.world).value, a).Some?
    requires Fingerprint(Gather(s.world).value, a) == s.checkpoint.state.fingerprint
    ensures Leads(true, s, events, t, 1)
    ensures At(t, PrepareExecution, s.checkpoint.state.(status := Some(REVALIDATING), observations := Gather(s.world),
                                                       drift := Some(false)), s.world, s.ledger)
  {
    var after := OnRevalidate(s.checkpoint.state, Gather(s.world).value).value;
    events, t := Leg(true, s, o, Body(s.world, s.ledger, None, after));
  }

  // ---- Cycles. ----

  /** `prepare_execution` and `execute`. */
  lemma Acting(revalidating: bool, s: Sys, o: Oracle, a: string, out: Outcome) returns (events: seq<Event>, t: Sys)
    requires s.checkpoint.next == PrepareExecution && s.checkpoint.state.action == Some(a)
    requires ExecuteAction(s.world, s.ledger, a, s.checkpoint.state.params, Key(s.checkpoint.state.runId, a))
      == Some(out)
    ensures Leads(revalidating, s, events, t, 2)
    ensures At(t, Verify, s.checkpoint.state.(status := Some(EXECUTING), key := Some(Key(s.checkpoint.state.runId, a)),
      result := Some(out.entry.result), compensation := Some(out.entry.compensation)), out.world, out.ledger)
  {
    var e1, m := Preparing(revalidating, s, o, a);
    var e2, u := Executing(revalidating, m, o, a, Key(s.checkpoint.state.runId, a), out);
    Chain(revalidating, s, e1, m, 1, e2, u, 1);
    events, t := e1 + e2, u;
  }

  lemma ProposingAndClassifying(revalidating: bool, s: Sys, o: Oracle, tier: Tier) returns (events: seq<Event>, t: Sys)
    requires s.checkpoint.next == ProposeAction && Proposable(s.checkpoint.state, o)
      && PolicyTier(s.checkpoint.state, o) == tier
    ensures Leads(revalidating, s, events, t, 2)
    ensures var c := t.checkpoint.state;
      && At(t, if tier == LowRisk then PrepareExecution else MarkAwaiting, c, s.world, s.ledger)
      && SameRun(s.checkpoint.state, c) && c.action == Some(ActionOf(o)) && c.params == o.params && c.invalid.None?
      && c.fingerprint == Fingerprint(c.observations.value, ActionOf(o)) && c.tier == Some(tier)
  {
    var e1, m := Proposing(revalidating, s, o);
    var e2, u := Classifying(revalidating, m, o, tier);
    Chain(revalidating, s, e1, m, 1, e2, u, 1);
    events, t := e1 + e2, u;
  }

  /** A low-risk cycle up to `verify`. */
  lemma LowRiskCycle(revalidating: bool, s: Sys, o: Oracle, out: Outcome) returns (events: seq<Event>, t: Sys)
    requires s.checkpoint.next == ProposeAction && Proposable(s.checkpoint.state, o)
      && PolicyTier(s.checkpoint.state, o) == LowRisk
    requires ExecuteAction(s.world, s.ledger, ActionOf(o), o.params, Key(s.checkpoint.state.runId, ActionOf(o)))
      == Some(out)
    ensures Leads(revalidating, s, events, t, 4)
    ensures var c := t.checkpoint.state;
      && At(t, Verify, c, out.world, out.ledger)
      && SameRun(s.checkpoint.state, c) && c.action == Some(ActionOf(o)) && c.params == o.params && c.invalid.None?
      && c.result == Some(out.entry.result) && c.compensation == Some(out.entry.compensation)
  {
    var e1, m := ProposingAndClassifying(revalidating, s, o, LowRisk);
    var e2, u := Acting(revalidating, m, o, ActionOf(o), out);
    Chain(revalidating, s, e1, m, 2, e2, u, 2);
    events, t := e1 + e2, u;
  }

  /** Proposed, put to sleep and decided without an edit. */
  lemma Asking(revalidating: bool, s: Sys, o: Oracle) returns (events: seq<Event>, t: Sys)
    requires s.checkpoint.next == ProposeAction && Proposable(s.checkpoint.state, o)
      && PolicyTier(s.checkpoint.state, o) != LowRisk
    requires o.edited.None?
    ensures Leads(revalidating, s, events, t, 4)
    ensures var b, c := s.checkpoint.state, t.checkpoint.state;
      && At(t, Next(revalidating, AwaitApproval, c), c, s.world, s.ledger)
      && c.runId == b.runId && c.cycles == b.cycles && c.observations == b.observations
      && c.decision == Some(o.decision)
      && c.action == Some(ActionOf(o)) && c.params == o.params && c.invalid.None?
      && c.fingerprint == Fingerprint(b.observations.value, ActionOf(o))
  {
    var e1, m := ProposingAndClassifying(revalidating, s, o, PolicyTier(s.checkpoint.state, o));
    var e2, u := Deciding(revalidating, m, o);
    Chain(revalidating, s, e1, m, 2, e2, u, 2);
    events, t := e1 + e2, u;
  }

  lemma ApprovedIsRechecked(c: AgentState)
    requires c.decision == Some(Approved)
    ensures Next(true, AwaitApproval, c) == Revalidate
  {
  }

  /** Approved, and found free of drift. */
  lemma Clearing(s: Sys, o: Oracle, fields: Option<Fields>) returns (events: seq<Event>, t: Sys)
    requires s.checkpoint.next == ProposeAction && Proposable(s.checkpoint.state, o)
      && PolicyTier(s.checkpoint.state, o) != LowRisk
    requires o.decision == Approved && o.edited.None?
    requires Gather(s.world).Some? && fields.Some?
    requires Fingerprint(Gather(s.world).value, ActionOf(o)) == fields
    requires Fingerprint(s.checkpoint.state.observations.value, ActionOf(o)) == fields
    ensures Leads(true, s, events, t, 5)
    ensures var c := t.checkpoint.state;
      && At(t, PrepareExecution, c, s.world, s.ledger)
      && c.runId == s.checkpoint.state.runId && c.cycles == s.checkpoint.state.cycles
      && c.observations == Gather(s.world)
      && c.action == Some(ActionOf(o)) && c.params == o.params
  {
    var e1, m := Asking(true, s, o);
    ApprovedIsRechecked(m.checkpoint.state);
    var e2, u := Rechecking(m, o, ActionOf(o));
    Chain(true, s, e1, m, 4, e2, u, 1);
    events, t := e1 + e2, u;
  }

  /** A cycle approved after a sleep and a clean revalidation, up to `verify`. */
  lemma ApprovedCycle(s: Sys, o: Oracle, out: Outcome) returns (events: seq<Event>, t: Sys)
    requires s.checkpoint.next == ProposeAction && Proposable(s.checkpoint.state, o)
      && PolicyTier(s.checkpoint.state, o) != LowRisk
    requires o.decision == Approved && o.edited.None?
    requires ExecuteAction(s.world, s.ledger, ActionOf(o), o.params, Key(s.checkpoint.state.runId, ActionOf(o)))
      == Some(out)
    requires Gather(s.world).Some?
    requires Fingerprint(Gather(s.world).value, ActionOf(o))
      == Fingerprint(s.checkpoint.state.observations.value, ActionOf(o))
    ensures Leads(true, s, events, t, 7)
    ensures var c := t.checkpoint.state;
      && At(t, Verify, c, out.world, out.ledger)
      && c.runId == s.checkpoint.state.runId && c.cycles == s.checkpoint.state.cycles
      && c.observations == Gather(s.world)
      && c.action == Some(ActionOf(o)) && c.result == Some(out.entry.result)
      && c.compensation == Some(out.entry.compensation)
  {
    ValidatedHasFingerprint(s.checkpoint.state.observations.value, ActionOf(o));
    var e1, m := Clearing(s, o, Fingerprint(s.checkpoint.state.observations.value, ActionOf(o)));
    var e2, u := Acting(true, m, o, ActionOf(o), out);
    Chain(true, s, e1, m, 5, e2, u, 2);
    events, t := e1 + e2, u;
  }

  lemma VerifyingAndUndoing(revalidating: bool, s: Sys, o: Oracle, w: World) returns (events: seq<Event>, t: Sys)
    requires s.checkpoint.next == Verify
    requires var c := s.checkpoint.state; c.action.Some? && c.result.Some? && c.compensation.Some?
    requires VerifyAction(s.world, s.checkpoint.state.action.value, s.checkpoint.state.result.value) == Some(false)
    requires Compensate(s.world, s.checkpoint.state.compensation.value) == Some(w)
    ensures Leads(revalidating, s, events, t, 2)
    ensures At(t, RolledBack, s.checkpoint.state.(status := Some(ROLLING_BACK), verified := Some(false)), w, s.ledger)
  {
    var e1, m := Verifying(revalidating, s, o, false);
    var e2, u := Undoing(revalidating, m, o, w);
    Chain(revalidating, s, e1, m, 1, e2, u, 1);
    events, t := e1 + e2, u;
  }

  lemma UndoneAndReplanning(revalidating: bool, s: Sys, o: Oracle) returns (events: seq<Event>, t: Sys)
    requires s.checkpoint.next == RolledBack
    ensures Leads(revalidating, s, events, t, 2)
    ensures var c := s.checkpoint.state;
      At(t, if c.cycles + 1 >= MAX_REPLAN_CYCLES then Escalate else ProposeAction,
         c.(status := Some(REPLANNING), cycles := c.cycles + 1, replanContext := Some(ReplanReason(c))),
         s.world, s.ledger)
  {
    var e1, m := Undone(revalidating, s, o);
    var e2, u := Replanning(revalidating, m, o);
    Chain(revalidating, s, e1, m, 1, e2, u, 1);
    events, t := e1 + e2, u;
  }

  /** A failed verification, its rollback and the replan. */
  lemma Failing(revalidating: bool, s: Sys, o: Oracle, w: World) returns (events: seq<Event>, t: Sys)
    requires s.checkpoint.next == Verify
    requires var c := s.checkpoint.state; c.action.Some? && c.result.Some? && c.compensation.Some?
    requires VerifyAction(s.world, s.checkpoint.state.action.value, s.checkpoint.state.result.value) == Some(false)
    requires Compensate(s.world, s.checkpoint.state.compensation.value) == Some(w)
    ensures Leads(revalidating, s, events, t, 4)
    ensures var c := s.checkpoint.state.(verified := Some(false));
      At(t, if c.cycles + 1 >= MAX_REPLAN_CYCLES then Escalate else ProposeAction,
         c.(status := Some(REPLANNING), cycles := c.cycles + 1, replanContext := Some(ReplanReason(c))), w, s.ledger)
  {
    var e1, m := VerifyingAndUndoing(revalidating, s, o, w);
    var e2, u := UndoneAndReplanning(revalidating, m, o);
    SameReason(m.checkpoint.state, s.checkpoint.state.(verified := Some(false)));
    Chain(revalidating, s, e1, m, 2, e2, u, 2);
    events, t := e1 + e2, u;
  }

  lemma SameReason(c: AgentState, d: AgentState)
    requires c.invalid == d.invalid && c.decision == d.decision && c.drift == d.drift && c.verified == d.verified
    ensures ReplanReason(c) == ReplanReason(d)
  {
  }
}
