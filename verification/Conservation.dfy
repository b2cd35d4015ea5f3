/** What a run leaves behind in the durable world (replicas, configuration, version histories, records):
    nothing if it escalates, its action if it completes and that action was new. */
module Conservation {
  import opened Options
  import opened MockService
  import opened Records
  import opened Actions
  import opened Tools
  import opened Workflow
  import opened Durable

  /** The durable effect of a tool call, as a function of the durable world alone. */
  function CoreEffect(core: Core, call: ToolCall): Core {
    match call
    case DeleteCall(kind, ids) =>
      var t := Table(core.rows, 0);
      core.(rows := Delete(t, IdsIn(RowsToDelete(t, kind, ids))).rows)
    case ScaleCall(s, n) =>
      if s in core.services then core.(services := core.services[s := core.services[s].(replicas := n)]) else core
    case ConfigCall(s, k, v) =>
      if s in core.services
      then core.(services := core.services[s := core.services[s].(config := core.services[s].config[k := v])]) else core
    case RollbackCall(s) =>
      if s in core.services && |core.services[s].versions| > 1
      then core.(services := core.services[s := core.services[s].(versions := Older(core.services[s].versions))])
      else core
    case RestartCall(_) => core
    case ClearCall(_) => core
  }

  function Older(h: History): History
    requires |h| > 1
  {
    h[..|h| - 1]
  }

  lemma {:induction false} ByIdsRowsOnly(t: Table, u: Table, ids: seq<int>)
    requires t.rows == u.rows
    ensures ByIds(t, ids) == ByIds(u, ids)
  {
    if ids != [] {
      ByIdsRowsOnly(t, u, ids[1..]);
    }
  }

  lemma PerformEffect(w: World, call: ToolCall)
    requires Perform(w, call).Some?
    ensures CoreOf(Perform(w, call).value.world) == CoreEffect(CoreOf(w), call)
  {
    var p := Perform(w, call).value;
    if call.DeleteCall? {
      if call.ids.Some? {
        ByIdsRowsOnly(w.table, Table(w.table.rows, 0), call.ids.value);
      }
    } else {
      var s := call.service;
      CoreUpdate(w, s, p.world.services[s]);
      assert CoreOf(w).services[s := CoreOf(w).services[s]] == CoreOf(w).services;
    }
  }

  lemma {:induction false} InsertRowsOnly(t: Table, u: Table, rows: seq<Row>)
    requires t.rows == u.rows
    ensures InsertMany(t, Reinserted(rows)).rows == InsertMany(u, Reinserted(rows)).rows
  {
    if rows != [] {
      var n := |rows| - 1;
      InsertRowsOnly(t, u, rows[..n]);
      assert Reinserted(rows)[..n] == Reinserted(rows[..n]);
    }
  }

  /** Whether a compensation restores `core` depends on the durable world only. */
  lemma RestoresByCore(w: World, v: World, c: Compensation, core: Core)
    requires CoreOf(w) == CoreOf(v)
    requires Restores(w, c, core)
    ensures Restores(v, c, core)
  {
    assert w.services.Keys == CoreOf(w).services.Keys && v.services.Keys == CoreOf(v).services.Keys;
    if Compensate(v, c).Some? {
      match c
      case Noop =>
      case Reinsert(rows) => InsertRowsOnly(w.table, v.table, rows);
      case ScaleBack(s, n) =>
        CoreUpdate(w, s, w.services[s].Scaled(n));
        CoreUpdate(v, s, v.services[s].Scaled(n));
        assert CoreOf(w).services[s] == CoreOf(v).services[s];
      case ConfigBack(s, k, x) =>
        CoreUpdate(w, s, w.services[s].Configured(k, x.value));
        CoreUpdate(v, s, v.services[s].Configured(k, x.value));
        assert CoreOf(w).services[s] == CoreOf(v).services[s];
      case DeployBack(s, x) =>
        CoreUpdate(w, s, w.services[s].Deployed(x));
        CoreUpdate(v, s, v.services[s].Deployed(x));
        assert CoreOf(w).services[s] == CoreOf(v).services[s];
    }
  }

  // ---- The assumptions: quiet surroundings, no harmful lost ledger write, restarts while nothing is in force. ----

  /** Others may do anything that keeps the durable world and this run's ledger keys as they are
      (inject faults, for one). */
  ghost predicate Quiet(revalidating: bool, s: Sys, events: seq<Event>) {
    if events == [] then true
    else
      var n := |events| - 1;
      && Quiet(revalidating, s, events[..n])
      && (events[n].Elsewhere? ==> QuietEvent(Run(revalidating, s, events[..n]), events[n]))
  }

  ghost predicate QuietEvent(s: Sys, e: Event)
    requires e.Elsewhere?
  {
    && CoreOf(e.world) == CoreOf(s.world)
    && forall a :: Key(s.checkpoint.state.runId, a) !in e.entries
  }

  /** No process died between acting and recording. */
  ghost predicate NothingLost(h: seq<Fact>) {
    forall f | f in h :: f.ToolCalled? && f.performed ==> f.recorded
  }

  /** A death between acting and recording left the durable world as it was. */
  ghost predicate HarmlessLoss(s: Sys, e: Event, t: Sys) {
    e.NodeRun? && e.crash == BeforeLedger && s.checkpoint.next == Execute ==> CoreOf(t.world) == CoreOf(s.world)
  }

  /** Every such death did: it lost a replay, a restart, a cleaned cache, or a call without durable effect. */
  ghost predicate LossesHarmless(revalidating: bool, s: Sys, events: seq<Event>) {
    if events == [] then true
    else
      var n := |events| - 1;
      && LossesHarmless(revalidating, s, events[..n])
      && HarmlessLoss(Run(revalidating, s, events[..n]), events[n], Run(revalidating, s, events))
  }

  /** Crashed processes are only ever continued from their checkpoint. */
  ghost predicate NeverRestarted(events: seq<Event>) {
    forall e | e in events :: !e.StartAgain?
  }

  /** Checkpoint and ledger show that nothing of this run is in force: no execution is under way or done. */
  ghost predicate RestartSafe(s: Sys) {
    var c := s.checkpoint;
    && c.next !in {Verify, RollingBack, Complete, End}
    && (c.next == Execute ==> c.state.key.Some? && c.state.key.value !in s.ledger)
  }

  /** Every start from START happens where checkpoint and ledger allow it. */
  ghost predicate SafeRestarts(revalidating: bool, s: Sys, events: seq<Event>) {
    if events == [] then true
    else
      var n := |events| - 1;
      && SafeRestarts(revalidating, s, events[..n])
      && (events[n].StartAgain? ==> RestartSafe(Run(revalidating, s, events[..n])))
  }

  /** Every start from START happens while the durable world is `core`. */
  ghost predicate RestartsAt(revalidating: bool, s: Sys, events: seq<Event>, core: Core) {
    if events == [] then true
    else
      var n := |events| - 1;
      && RestartsAt(revalidating, s, events[..n], core)
      && (events[n].StartAgain? ==> CoreOf(Run(revalidating, s, events[..n]).world) == core)
  }

  lemma {:induction false} NeverIsSafe(revalidating: bool, s: Sys, events: seq<Event>, core: Core)
    requires NeverRestarted(events)
    ensures SafeRestarts(revalidating, s, events) && RestartsAt(revalidating, s, events, core)
  {
    if events != [] {
      var n := |events| - 1;
      assert events[n] in events && forall e | e in events[..n] :: e in events;
      NeverIsSafe(revalidating, s, events[..n], core);
    }
  }

  lemma {:induction false} WithoutLossesHarmless(revalidating: bool, s: Sys, events: seq<Event>)
    requires forall e | e in events :: e.NodeRun? ==> e.crash != BeforeLedger
    ensures LossesHarmless(revalidating, s, events)
  {
    if events != [] {
      var n := |events| - 1;
      assert events[n] in events && forall e | e in events[..n] :: e in events;
      WithoutLossesHarmless(revalidating, s, events[..n]);
    }
  }

  /** `a` was executed and rolled back in an earlier cycle of this run. */
  ghost predicate RolledBackEarlier(h: seq<Fact>, a: string) {
    exists f :: f in h && f.Committed? && f.node == RollingBack && f.before.action == Some(a)
  }

  /** The tool calls that acted since the last committed proposal. */
  function ActedInCycle(h: seq<Fact>): seq<Fact> {
    if h == [] then []
    else
      var f := h[|h| - 1];
      if f.Committed? && f.node == ProposeAction then []
      else ActedInCycle(h[..|h| - 1]) + (if f.ToolCalled? && f.performed then [f] else [])
  }

  // ---- The invariant. ----

  /** The ledger keeps only compensations whose old values are those of the run's start. */
  ghost predicate LedgerAnchored(s: Sys, core: Core) {
    forall a :: var k := Key(s.checkpoint.state.runId, a); k in s.ledger ==> Anchored(s.ledger[k].compensation, core)
  }

  /** Where a compensation cannot be run, what it should undo is still there. */
  ghost predicate Sticks(c: Compensation, core: Core) {
    match c
    case Noop => true
    case Reinsert(_) => true
    case ScaleBack(s, _) => s in core.services
    case DeployBack(s, _) => s in core.services
    case ConfigBack(s, k, v) => s in core.services && (v.None? ==> k in core.services[s].config)
  }

  ghost predicate LedgerSticks(s: Sys) {
    forall a :: var k := Key(s.checkpoint.state.runId, a);
      k in s.ledger ==> Sticks(s.ledger[k].compensation, CoreOf(s.world))
  }

  /** The execution of the current action is under way, or done and not undone. */
  predicate Underway(c: Checkpoint) {
    c.next in {Execute, Verify, RollingBack, Complete} || (c.next == End && c.state.status == Some(COMPLETED))
  }

  /** The undo of an execution under way or done, read off checkpoint and ledger. */
  function Pending(s: Sys): Option<Compensation> {
    var c := s.checkpoint.state;
    if Underway(s.checkpoint) && c.action.Some? && Key(c.runId, c.action.value) in s.ledger
    then Some(s.ledger[Key(c.runId, c.action.value)].compensation) else None
  }

  /** The channels hold the pending undo, and it leads back to `core`. */
  ghost predicate Held(s: Sys, core: Core) {
    var c := s.checkpoint.state;
    && c.action.Some? && Key(c.runId, c.action.value) in s.ledger
    && c.compensation == Some(s.ledger[Key(c.runId, c.action.value)].compensation)
    && Restores(s.world, c.compensation.value, core)
  }

  /** Whatever the run has executed, its registered undo leads back to `core`. */
  ghost predicate Undoable(s: Sys, core: Core) {
    && GoodHistories(core) && LedgerAnchored(s, core) && LedgerSticks(s)
    && var c := s.checkpoint.state;
    match s.checkpoint.next
    case Execute =>
      && c.action.Some? && c.key == Some(Key(c.runId, c.action.value))
      && if c.key.value in s.ledger then Restores(s.world, s.ledger[c.key.value].compensation, core)
         else CoreOf(s.world) == core
    case Verify => Held(s, core)
    case RollingBack => Held(s, core)
    case Complete => Held(s, core)
    case End =>
      if c.status == Some(COMPLETED) then Held(s, core) else c.status == Some(ESCALATED) && CoreOf(s.world) == core
    case _ => CoreOf(s.world) == core
  }

  /** Exactly the actions rolled back earlier, and the one in progress, have a ledger entry. */
  ghost predicate LedgerExplained(s: Sys) {
    && (forall a :: Key(s.checkpoint.state.runId, a) in s.ledger ==>
          RolledBackEarlier(s.history, a) ||
          (s.checkpoint.next in {Execute, Verify, RollingBack, Complete, End} && s.checkpoint.state.action == Some(a)))
    && (forall a :: RolledBackEarlier(s.history, a) ==> Key(s.checkpoint.state.runId, a) in s.ledger)
  }

  /** The current action counts as executed: by one call of this cycle, whose entry the ledger holds and
      whose effect is in force, or - if it was rolled back earlier - by a replay that acted on nothing. */
  ghost predicate InForce(s: Sys, core: Core) {
    var c, acted := s.checkpoint.state, ActedInCycle(s.history);
    && c.action.Some? && Key(c.runId, c.action.value) in s.ledger
    && if RolledBackEarlier(s.history, c.action.value) then acted == [] && CoreOf(s.world) == core
       else ActedOnce(s, acted)
            && ParseCall(c.action.value, c.params).Some?
            && CoreOf(s.world) == CoreEffect(core, ParseCall(c.action.value, c.params).value)
  }

  ghost predicate ActedOnce(s: Sys, acted: seq<Fact>)
    requires s.checkpoint.state.action.Some?
  {
    var a := s.checkpoint.state.action.value;
    var key := Key(s.checkpoint.state.runId, a);
    && |acted| == 1 && acted[0].ToolCalled? && acted[0].action == a && acted[0].key == key && acted[0].recorded
    && key in s.ledger && s.ledger[key] == acted[0].entry
  }

  ghost predicate Accounted(s: Sys, core: Core) {
    var c := s.checkpoint.state;
    && LedgerExplained(s)
    && match s.checkpoint.next
       case Execute =>
         if c.key.Some? && c.key.value in s.ledger then InForce(s, core) else ActedInCycle(s.history) == []
       case Verify => InForce(s, core)
       case RollingBack => c.action.Some? && Key(c.runId, c.action.value) in s.ledger
       case Complete => InForce(s, core) && c.verified == Some(true)
       case End => c.status == Some(COMPLETED) ==> InForce(s, core) && c.verified == Some(true)
       case Diagnose => true
       case ProposeAction => true
       case RolledBack => true
       case Replan => true
       case Escalate => true
       case _ => ActedInCycle(s.history) == []
  }

  ghost predicate Inv(s: Sys, core: Core) { Undoable(s, core) && Accounted(s, core) }

  lemma KeyInjective(runId: string, a: string, b: string)
    requires Key(runId, a) == Key(runId, b)
    ensures a == b
  {
    assert Key(runId, a)[|runId| + 1..] == a && Key(runId, b)[|runId| + 1..] == b;
  }

  /** Running the pending undo would change the durable world, or fails. */
  ghost predicate UndoWouldChange(s: Sys) {
    match Pending(s)
    case None => false
    case Some(c) =>
      match Compensate(s.world, c)
      case None => true
      case Some(w) => CoreOf(w) != CoreOf(s.world)
  }

  /** Checkpoint, ledger and world tell exactly whether the run has changed the durable world. */
  lemma PendingTells(s: Sys, core: Core)
    requires Undoable(s, core)
    ensures UndoWouldChange(s) <==> CoreOf(s.world) != core
    ensures RestartSafe(s) ==> Pending(s).None?
  {
    if Pending(s).Some? && Compensate(s.world, Pending(s).value).None? {
      assert s.world.services.Keys == CoreOf(s.world).services.Keys;
    }
  }

  // ---- The shapes a step can have. ----

  ghost predicate SameEarlier(h: seq<Fact>, k: seq<Fact>) {
    forall a :: RolledBackEarlier(k, a) <==> RolledBackEarlier(h, a)
  }

  /** Facts that commit neither a rollback nor a proposal, and no call that acted. */
  lemma {:induction false} QuietFacts(h: seq<Fact>, g: seq<Fact>)
    requires forall f | f in g :: !(f.Committed? && (f.node == RollingBack || f.node == ProposeAction))
    requires forall f | f in g :: !(f.ToolCalled? && f.performed)
    ensures SameEarlier(h, h + g) && ActedInCycle(h + g) == ActedInCycle(h)
  {
    if g == [] {
      assert h + g == h;
    } else {
      var n := |g| - 1;
      assert g[n] in g && forall f | f in g[..n] :: f in g;
      QuietFacts(h, g[..n]);
      assert (h + g)[..|h + g| - 1] == h + g[..n];
      assert forall f :: f in h + g <==> f in h + g[..n] || f == g[n];
    }
  }

  lemma ActedAppend(h: seq<Fact>, f: Fact)
    ensures ActedInCycle(h + [f]) ==
      if f.Committed? && f.node == ProposeAction then []
      else ActedInCycle(h) + (if f.ToolCalled? && f.performed then [f] else [])
  {
    assert (h + [f])[..|h|] == h;
  }

  /** The run stays where it is, and nothing durable happens. */
  ghost predicate Still(s: Sys, t: Sys) {
    var runId := s.checkpoint.state.runId;
    && t.checkpoint == s.checkpoint && CoreOf(t.world) == CoreOf(s.world)
    && (forall a :: Key(runId, a) in t.ledger <==> Key(runId, a) in s.ledger)
    && (forall k | k in s.ledger :: k in t.ledger && t.ledger[k] == s.ledger[k])
    && SameEarlier(s.history, t.history)
  }

  /** ... and no call acted: others did, or a node run came to nothing. */
  ghost predicate Idle(s: Sys, t: Sys) { Still(s, t) && ActedInCycle(t.history) == ActedInCycle(s.history) }

  /** A node other than `execute` and `rolling_back` committed: neither world nor ledger changed. */
  ghost predicate Plain(revalidating: bool, s: Sys, t: Sys) {
    var node, c, d := s.checkpoint.next, s.checkpoint.state, t.checkpoint.state;
    && t.world == s.world && t.ledger == s.ledger && d.runId == c.runId
    && SameEarlier(s.history, t.history)
    && ActedInCycle(t.history) == (if node == ProposeAction then [] else ActedInCycle(s.history))
    && t.checkpoint.next == Next(revalidating, node, d)
    && (node in {PrepareExecution, Verify, Complete, Escalate} ==>
          d.action == c.action && d.params == c.params && d.compensation == c.compensation)
    && (node == PrepareExecution ==> c.action.Some? && d.key == Some(Key(c.runId, c.action.value)))
    && (node == Complete ==> d.status == Some(COMPLETED) && d.verified == c.verified)
    && (node == Escalate ==> d.status == Some(ESCALATED))
  }

  /** `execute` got as far as the ledger, and perhaps to its commit. */
  ghost predicate Executed(s: Sys, t: Sys, a: string, key: string, call: ToolCall) {
    var c, acted := s.checkpoint.state, ActedInCycle(t.history);
    && SameEarlier(s.history, t.history)
    && (t.checkpoint == s.checkpoint ||
        (t.checkpoint.next == Verify && key in t.ledger &&
         t.checkpoint.state == c.(status := Some(EXECUTING), result := Some(t.ledger[key].result),
                                  compensation := Some(t.ledger[key].compensation))))
    && if key in s.ledger then t.world == s.world && t.ledger == s.ledger && acted == ActedInCycle(s.history)
       else
         && Perform(s.world, call).Some?
         && var p := Perform(s.world, call).value;
         var entry := Entry(call, p.result, p.compensation);
         && t.world == p.world && t.ledger == s.ledger[key := entry]
         && acted == ActedInCycle(s.history) + [ToolCalled(a, key, true, true, entry)]
  }

  /** `rolling_back` ran its compensation, and perhaps committed. */
  ghost predicate Undid(s: Sys, t: Sys) {
    var c := s.checkpoint.state;
    && c.compensation.Some? && Compensate(s.world, c.compensation.value) == Some(t.world) && t.ledger == s.ledger
    && if t.checkpoint == s.checkpoint then
         SameEarlier(s.history, t.history) && ActedInCycle(t.history) == ActedInCycle(s.history)
       else
         && t.checkpoint == Checkpoint(RolledBack, c.(status := Some(ROLLING_BACK)))
         && forall a :: RolledBackEarlier(t.history, a) <==> RolledBackEarlier(s.history, a) || c.action == Some(a)
  }

  lemma ElsewhereIsIdle(revalidating: bool, s: Sys, e: Event)
    requires e.Elsewhere? && QuietEvent(s, e)
    ensures Idle(s, Step(revalidating, s, e))
  {
  }

  /** A node run that came to nothing, or died in a node that touches neither world nor ledger. */
  lemma DeathIsIdle(revalidating: bool, s: Sys, e: Event)
    requires e.NodeRun? && s.checkpoint.next != End
    requires RunBody(s.checkpoint, s.world, s.ledger, e.oracle).None? || e.crash == BeforeEffect
             || (e.crash != Survives && s.checkpoint.next != Execute && s.checkpoint.next != RollingBack)
    ensures Idle(s, Step(revalidating, s, e))
  {
    var body := RunBody(s.checkpoint, s.world, s.ledger, e.oracle);
    if body.Some? && e.crash != BeforeEffect {
      ReadOnlyBody(s.checkpoint, s.world, s.ledger, e.oracle);
    }
    DeathOfBody(revalidating, s, body, e.crash, e.timestamp);
    QuietFacts(s.history, FactsOf(s.checkpoint, body, e.crash));
    BodyAdds(revalidating, s, body, e.crash, e.timestamp);
  }

  lemma DeathOfBody(revalidating: bool, s: Sys, body: Option<Body>, crash: Crash, timestamp: int)
    requires
      || body.None?
      || crash == BeforeEffect
      || (crash != Survives && body.value.world == s.world && body.value.ledger == s.ledger && body.value.call.None?)
    ensures var t := AfterBody(revalidating, s, body, crash, timestamp);
      && t.checkpoint == s.checkpoint && t.world == s.world && t.ledger == s.ledger
      && forall f | f in FactsOf(s.checkpoint, body, crash) :: f.Died?
  {
  }

  lemma PlainStep(revalidating: bool, s: Sys, e: Event)
    requires e.NodeRun? && e.crash == Survives
    requires s.checkpoint.next !in {Execute, RollingBack, End}
    requires RunBody(s.checkpoint, s.world, s.ledger, e.oracle).Some?
    ensures Plain(revalidating, s, Step(revalidating, s, e))
  {
    var t := Step(revalidating, s, e);
    var f := Committed(s.checkpoint.next, s.checkpoint.state, Step(revalidating, s, e).checkpoint.state);
    ReadOnlyBody(s.checkpoint, s.world, s.ledger, e.oracle);
    assert t.history == s.history + [f];
    ActedAppend(s.history, f);
    assert SameEarlier(s.history, t.history) by {
      assert forall g :: g in t.history <==> g in s.history || g == f;
    }
    PlainUpdate(revalidating, s, e);
  }

  lemma PlainUpdate(revalidating: bool, s: Sys, e: Event)
    requires e.NodeRun? && e.crash == Survives
    requires s.checkpoint.next !in {Execute, RollingBack, End}
    requires RunBody(s.checkpoint, s.world, s.ledger, e.oracle).Some?
    ensures var t := Step(revalidating, s, e);
      var node, c, d := s.checkpoint.next, s.checkpoint.state, t.checkpoint.state;
      && d.runId == c.runId && t.checkpoint.next == Next(revalidating, node, d)
      && (node in {PrepareExecution, Verify, Complete, Escalate} ==>
            d.action == c.action && d.params == c.params && d.compensation == c.compensation)
      && (node == PrepareExecution ==> c.action.Some? && d.key == Some(Key(c.runId, c.action.value)))
      && (node == Complete ==> d.status == Some(COMPLETED) && d.verified == c.verified)
      && (node == Escalate ==> d.status == Some(ESCALATED))
  {
  }

  /** What one run of `execute` does, before anything can be lost. */
  lemma ExecuteBody(c: Checkpoint, w: World, ledger: Ledger, o: Oracle, a: string, key: string, body: Body)
    requires c.next == Execute && c.state.action == Some(a) && c.state.key == Some(key)
    requires RunBody(c, w, ledger, o) == Some(body)
    ensures ParseCall(a, c.state.params).Some?
    ensures var out := RunIdempotent(w, ledger, key, ParseCall(a, c.state.params).value);
      && out.Some? && body.world == out.value.world && body.ledger == out.value.ledger
      && body.call == Some(ToolCalled(a, key, key !in ledger, true, out.value.entry))
      && body.after == c.state.(status := Some(EXECUTING), result := Some(out.value.entry.result),
                               compensation := Some(out.value.entry.compensation))
  {
  }

  /** A call, then the node's fact. */
  lemma CallAndFact(h: seq<Fact>, call: Fact, f: Fact)
    requires call.ToolCalled? && !f.ToolCalled? && (f.Committed? ==> f.node != RollingBack && f.node != ProposeAction)
    ensures SameEarlier(h, h + [call] + [f])
    ensures ActedInCycle(h + [call] + [f]) == ActedInCycle(h) + (if call.performed then [call] else [])
  {
    ActedAppend(h, call);
    ActedAppend(h + [call], f);
    assert forall g :: g in h + [call] + [f] <==> g in h || g == call || g == f;
  }

  lemma CallOfBody(revalidating: bool, s: Sys, body: Body, crash: Crash, timestamp: int) returns (call: Fact, f: Fact)
    requires crash != BeforeEffect && body.call.Some? && body.call.value.ToolCalled? && body.call.value.recorded
    ensures var t := AfterBody(revalidating, s, Some(body), crash, timestamp);
      && t.history == s.history + [call] + [f] && call == body.call.value.(recorded := crash != BeforeLedger)
      && !f.ToolCalled? && (f.Committed? ==> f.node == s.checkpoint.next)
      && t.world == body.world && t.ledger == (if crash == BeforeLedger then s.ledger else body.ledger)
      && t.checkpoint == (if crash == Survives
                          then Checkpoint(Next(revalidating, s.checkpoint.next, body.after), body.after)
                          else s.checkpoint)
  {
    var changed := s.checkpoint.state.status != body.after.status;
    call := body.call.value.(recorded := crash != BeforeLedger);
    f := if crash == Survives then Committed(s.checkpoint.next, s.checkpoint.state, body.after)
         else Died(s.checkpoint.next, crash == BeforeCommit, changed);
    assert FactsOf(s.checkpoint, Some(body), crash) == [call] + [f];
    BodyAdds(revalidating, s, Some(body), crash, timestamp);
  }

  lemma ExecuteStep(revalidating: bool, s: Sys, e: Event, a: string, key: string)
    requires s.checkpoint.next == Execute
    requires s.checkpoint.state.action == Some(a) && s.checkpoint.state.key == Some(key)
    requires e.NodeRun? && e.crash != BeforeEffect
    requires RunBody(s.checkpoint, s.world, s.ledger, e.oracle).Some?
    requires e.crash == BeforeLedger ==> NothingLost(Step(revalidating, s, e).history)
    ensures ParseCall(a, s.checkpoint.state.params).Some?
    ensures Executed(s, Step(revalidating, s, e), a, key, ParseCall(a, s.checkpoint.state.params).value)
  {
    var body := RunBody(s.checkpoint, s.world, s.ledger, e.oracle).value;
    ExecuteBody(s.checkpoint, s.world, s.ledger, e.oracle, a, key, body);
    var call, f := CallOfBody(revalidating, s, body, e.crash, e.timestamp);
    CallAndFact(s.history, call, f);
    assert call in Step(revalidating, s, e).history;
  }

  /** Where no acting call is lost, a death before the ledger write can only have lost a replay. */
  lemma NothingLostIsHarmless(revalidating: bool, s: Sys, e: Event)
    requires NothingLost(Step(revalidating, s, e).history)
    ensures HarmlessLoss(s, e, Step(revalidating, s, e))
  {
    if e.NodeRun? && e.crash == BeforeLedger && s.checkpoint.next == Execute {
      var body := RunBody(s.checkpoint, s.world, s.ledger, e.oracle);
      if body.Some? {
        var a, key := s.checkpoint.state.action.value, s.checkpoint.state.key.value;
        ExecuteStep(revalidating, s, e, a, key);
        ExecuteBody(s.checkpoint, s.world, s.ledger, e.oracle, a, key, body.value);
        var call, f := CallOfBody(revalidating, s, body.value, e.crash, e.timestamp);
        assert call in Step(revalidating, s, e).history;
      }
    }
  }

  /** A harmless loss leaves the run where it was. */
  lemma LossIsStill(revalidating: bool, s: Sys, e: Event)
    requires s.checkpoint.next == Execute && e.NodeRun? && e.crash == BeforeLedger
    requires RunBody(s.checkpoint, s.world, s.ledger, e.oracle).Some?
    requires HarmlessLoss(s, e, Step(revalidating, s, e))
    ensures Still(s, Step(revalidating, s, e))
  {
    var body := RunBody(s.checkpoint, s.world, s.ledger, e.oracle).value;
    var a, key := s.checkpoint.state.action.value, s.checkpoint.state.key.value;
    ExecuteBody(s.checkpoint, s.world, s.ledger, e.oracle, a, key, body);
    var call, f := CallOfBody(revalidating, s, body, e.crash, e.timestamp);
    CallAndFact(s.history, call, f);
  }

  lemma UndoStep(revalidating: bool, s: Sys, e: Event)
    requires s.checkpoint.next == RollingBack && e.NodeRun? && e.crash != BeforeEffect
    requires RunBody(s.checkpoint, s.world, s.ledger, e.oracle).Some?
    ensures Undid(s, Step(revalidating, s, e))
  {
    var t, g := Step(revalidating, s, e), Added(revalidating, s, e);
    if e.crash == Survives {
      assert g == [Committed(RollingBack, s.checkpoint.state, t.checkpoint.state)];
      assert forall f :: f in t.history <==> f in s.history || f == g[0];
    } else {
      QuietFacts(s.history, g);
    }
  }

  // ---- Each shape keeps the run undoable. ----

  lemma StillKeepsUndoable(s: Sys, t: Sys, core: Core)
    requires Undoable(s, core) && Still(s, t)
    ensures Undoable(t, core)
  {
    if Pending(s).Some? {
      RestoresByCore(s.world, t.world, Pending(s).value, core);
    }
  }

  /** No tool and no compensation removes a service or a configuration key. */
  lemma PerformSticks(w: World, call: ToolCall, c: Compensation)
    requires Perform(w, call).Some?
    ensures Sticks(c, CoreOf(w)) ==> Sticks(c, CoreOf(Perform(w, call).value.world))
    ensures Sticks(Perform(w, call).value.compensation, CoreOf(Perform(w, call).value.world))
  {
    PerformEffect(w, call);
    assert w.services.Keys == CoreOf(w).services.Keys;
  }

  lemma CompensateSticks(w: World, d: Compensation, c: Compensation)
    requires Compensate(w, d).Some?
    ensures Sticks(c, CoreOf(w)) ==> Sticks(c, CoreOf(Compensate(w, d).value))
  {
    assert w.services.Keys == CoreOf(w).services.Keys;
    match d
    case Noop =>
    case Reinsert(_) =>
    case ScaleBack(s, n) => CoreUpdate(w, s, w.services[s].Scaled(n));
    case ConfigBack(s, k, v) => CoreUpdate(w, s, w.services[s].Configured(k, v.value));
    case DeployBack(s, v) => CoreUpdate(w, s, w.services[s].Deployed(v));
  }

  lemma PlainKeepsUndoable(revalidating: bool, s: Sys, t: Sys, core: Core)
    requires Undoable(s, core) && Plain(revalidating, s, t)
    requires s.checkpoint.next !in {Execute, RollingBack, End}
    ensures Undoable(t, core)
  {
    var d := t.checkpoint.state;
    if s.checkpoint.next == PrepareExecution && d.key.value in s.ledger {
      AnchoredRestores(s.world, s.ledger[d.key.value].compensation);
    }
  }

  /** A new key performs once and registers an anchored undo; a known key replays. */
  lemma ExecutedKeepsUndoable(s: Sys, t: Sys, a: string, call: ToolCall, core: Core)
    requires Undoable(s, core) && s.checkpoint.next == Execute && s.checkpoint.state.action == Some(a)
    requires Executed(s, t, a, Key(s.checkpoint.state.runId, a), call)
    ensures Undoable(t, core)
  {
    if Key(s.checkpoint.state.runId, a) !in s.ledger {
      PerformUndone(s.world, call);
      forall c: Compensation | Sticks(c, CoreOf(s.world))
        ensures Sticks(c, CoreOf(t.world))
      {
        PerformSticks(s.world, call, c);
      }
      PerformSticks(s.world, call, Noop);
    }
  }

  /** The compensation restores the start, also when it runs again after a crash. */
  lemma UndidKeepsUndoable(s: Sys, t: Sys, core: Core)
    requires Undoable(s, core) && s.checkpoint.next == RollingBack && Undid(s, t)
    ensures Undoable(t, core) && CoreOf(t.world) == core
  {
    AnchoredRestores(t.world, s.checkpoint.state.compensation.value);
    forall c: Compensation | Sticks(c, CoreOf(s.world))
      ensures Sticks(c, CoreOf(t.world))
    {
      CompensateSticks(s.world, s.checkpoint.state.compensation.value, c);
    }
  }

  lemma StepKeepsUndoable(revalidating: bool, s: Sys, e: Event, core: Core)
    requires Undoable(s, core)
    requires HarmlessLoss(s, e, Step(revalidating, s, e))
    requires e.Elsewhere? ==> QuietEvent(s, e)
    requires e.StartAgain? ==> CoreOf(s.world) == core
    ensures Undoable(Step(revalidating, s, e), core)
  {
    var t, c := Step(revalidating, s, e), s.checkpoint.state;
    if e.Elsewhere? {
      ElsewhereIsIdle(revalidating, s, e);
      StillKeepsUndoable(s, t, core);
    } else if e.NodeRun? && s.checkpoint.next != End {
      if RunBody(s.checkpoint, s.world, s.ledger, e.oracle).None? || e.crash == BeforeEffect {
        DeathIsIdle(revalidating, s, e);
        StillKeepsUndoable(s, t, core);
      } else if s.checkpoint.next == Execute && e.crash == BeforeLedger {
        LossIsStill(revalidating, s, e);
        StillKeepsUndoable(s, t, core);
      } else if s.checkpoint.next == Execute {
        ExecuteStep(revalidating, s, e, c.action.value, c.key.value);
        ExecutedKeepsUndoable(s, t, c.action.value, ParseCall(c.action.value, c.params).value, core);
      } else if s.checkpoint.next == RollingBack {
        UndoStep(revalidating, s, e);
        UndidKeepsUndoable(s, t, core);
      } else if e.crash != Survives {
        DeathIsIdle(revalidating, s, e);
        StillKeepsUndoable(s, t, core);
      } else {
        PlainStep(revalidating, s, e);
        PlainKeepsUndoable(revalidating, s, t, core);
      }
    }
  }

  // ---- Each shape keeps the account of what was executed. ----

  lemma IdleKeepsAccount(s: Sys, t: Sys, core: Core)
    requires Inv(s, core) && Idle(s, t)
    ensures Accounted(t, core)
  {
  }

  lemma PlainKeepsAccount(revalidating: bool, s: Sys, t: Sys, core: Core)
    requires Inv(s, core) && Plain(revalidating, s, t)
    requires s.checkpoint.next !in {Execute, RollingBack, End}
    ensures Accounted(t, core)
  {
  }

  lemma ExecutedKeepsAccount(s: Sys, t: Sys, a: string, call: ToolCall, core: Core)
    requires Inv(s, core) && s.checkpoint.next == Execute && s.checkpoint.state.action == Some(a)
    requires ParseCall(a, s.checkpoint.state.params) == Some(call)
    requires Executed(s, t, a, Key(s.checkpoint.state.runId, a), call)
    ensures Accounted(t, core)
  {
    var runId := s.checkpoint.state.runId;
    if Key(runId, a) !in s.ledger {
      PerformEffect(s.world, call);
      forall b | Key(runId, b) == Key(runId, a)
        ensures b == a
      {
        KeyInjective(runId, b, a);
      }
      assert !RolledBackEarlier(s.history, a);
    }
  }

  lemma UndidKeepsAccount(s: Sys, t: Sys, core: Core)
    requires Inv(s, core) && s.checkpoint.next == RollingBack && Undid(s, t)
    ensures Accounted(t, core)
  {
  }

  lemma RestartKeepsAccount(s: Sys, t: Sys, core: Core)
    requires Inv(s, core) && RestartSafe(s)
    requires t == s.(checkpoint := Checkpoint(Diagnose, s.checkpoint.state), history := s.history + [StartedAgain])
    ensures Accounted(t, core)
  {
    QuietFacts(s.history, [StartedAgain]);
  }

  lemma NodeRunKeepsAccount(revalidating: bool, s: Sys, e: Event, core: Core)
    requires Inv(s, core) && e.NodeRun? && s.checkpoint.next != End
    requires NothingLost(Step(revalidating, s, e).history)
    ensures Accounted(Step(revalidating, s, e), core)
  {
    var t, c := Step(revalidating, s, e), s.checkpoint.state;
    if RunBody(s.checkpoint, s.world, s.ledger, e.oracle).None? || e.crash == BeforeEffect {
      DeathIsIdle(revalidating, s, e);
      IdleKeepsAccount(s, t, core);
    } else if s.checkpoint.next == Execute {
      ExecuteStep(revalidating, s, e, c.action.value, c.key.value);
      ExecutedKeepsAccount(s, t, c.action.value, ParseCall(c.action.value, c.params).value, core);
    } else if s.checkpoint.next == RollingBack {
      UndoStep(revalidating, s, e);
      UndidKeepsAccount(s, t, core);
    } else if e.crash != Survives {
      DeathIsIdle(revalidating, s, e);
      IdleKeepsAccount(s, t, core);
    } else {
      PlainStep(revalidating, s, e);
      PlainKeepsAccount(revalidating, s, t, core);
    }
  }

  lemma StepKeepsInv(revalidating: bool, s: Sys, e: Event, core: Core)
    requires Inv(s, core)
    requires NothingLost(Step(revalidating, s, e).history)
    requires e.Elsewhere? ==> QuietEvent(s, e)
    requires e.StartAgain? ==> RestartSafe(s)
    ensures Inv(Step(revalidating, s, e), core)
  {
    NothingLostIsHarmless(revalidating, s, e);
    StepKeepsUndoable(revalidating, s, e, core);
    if e.StartAgain? {
      RestartKeepsAccount(s, Step(revalidating, s, e), core);
    } else if e.Elsewhere? {
      ElsewhereIsIdle(revalidating, s, e);
      IdleKeepsAccount(s, Step(revalidating, s, e), core);
    } else if s.checkpoint.next != End {
      NodeRunKeepsAccount(revalidating, s, e, core);
    }
  }

  // ---- Whole runs. ----

  lemma LastStep(revalidating: bool, s: Sys, events: seq<Event>)
    requires events != [] && NothingLost(Run(revalidating, s, events).history)
    ensures var n := |events| - 1;
      && NothingLost(Run(revalidating, s, events[..n]).history)
      && Run(revalidating, s, events) == Step(revalidating, Run(revalidating, s, events[..n]), events[n])
  {
    var n := |events| - 1;
    var m := Run(revalidating, s, events[..n]);
    assert Run(revalidating, s, events).history == m.history + Added(revalidating, m, events[n]);
    assert forall f | f in m.history :: f in Run(revalidating, s, events).history;
  }

  lemma {:induction false} RunKeepsUndoable(revalidating: bool, s: Sys, events: seq<Event>, core: Core)
    requires Undoable(s, core)
    requires Quiet(revalidating, s, events) && RestartsAt(revalidating, s, events, core)
    requires LossesHarmless(revalidating, s, events)
    ensures Undoable(Run(revalidating, s, events), core)
  {
    if events != [] {
      var n := |events| - 1;
      RunKeepsUndoable(revalidating, s, events[..n], core);
      StepKeepsUndoable(revalidating, Run(revalidating, s, events[..n]), events[n], core);
    }
  }

  lemma {:induction false} RunKeepsInv(revalidating: bool, s: Sys, events: seq<Event>, core: Core)
    requires Inv(s, core)
    requires Quiet(revalidating, s, events) && SafeRestarts(revalidating, s, events)
    requires NothingLost(Run(revalidating, s, events).history)
    ensures Inv(Run(revalidating, s, events), core)
  {
    if events != [] {
      var n := |events| - 1;
      LastStep(revalidating, s, events);
      RunKeepsInv(revalidating, s, events[..n], core);
      StepKeepsInv(revalidating, Run(revalidating, s, events[..n]), events[n], core);
    }
  }

  /** A fresh run: no ledger key of its own yet, histories without adjacent repeats. */
  ghost predicate CleanStart(s: Sys, runId: string) {
    && Fresh(s, runId)
    && (forall a :: Key(runId, a) !in s.ledger)
    && GoodHistories(CoreOf(s.world))
  }

  /** Escalation conserves the world, under the exact conditions on restarts and on lost ledger writes (see
      `Restarts.RestartExactly` and `LostWrites.LostWriteExactly`): every start from START finds the durable
      world as it was at the beginning, and no death between acting and recording changed it. */
  lemma EscalationConserves(revalidating: bool, runId: string, s: Sys, events: seq<Event>)
    requires CleanStart(s, runId)
    requires Quiet(revalidating, s, events) && RestartsAt(revalidating, s, events, CoreOf(s.world))
    requires LossesHarmless(revalidating, s, events)
    requires Run(revalidating, s, events).checkpoint.next == End
    requires Run(revalidating, s, events).checkpoint.state.status == Some(ESCALATED)
    ensures CoreOf(Run(revalidating, s, events).world) == CoreOf(s.world)
  {
    RunKeepsUndoable(revalidating, s, events, CoreOf(s.world));
  }

  /** Escalation conserves the world, and completion leaves exactly one new effect. However a run crashes
      and is continued, or started again from START while its checkpoint and the ledger show nothing of it in
      force, whatever is proposed again, replayed from the ledger or compensated twice: if it ends ESCALATED,
      every replica count, configuration, version history and record is as it was at the start. If it ends
      COMPLETED, its last verification passed; exactly one tool call acted since the last proposal, the
      recorded one of the completed action, and the durable world is the start plus its effect - except
      that an action already rolled back earlier in the run was only replayed, so that no call acted and
      nothing changed, whatever its new parameters were. */
  lemma EndsConserved(revalidating: bool, runId: string, s: Sys, events: seq<Event>)
    requires CleanStart(s, runId)
    requires Quiet(revalidating, s, events) && SafeRestarts(revalidating, s, events)
    requires NothingLost(Run(revalidating, s, events).history)
    requires Run(revalidating, s, events).checkpoint.next == End
    ensures var t, core := Run(revalidating, s, events), CoreOf(s.world);
      var c := t.checkpoint.state;
      && (c.status == Some(ESCALATED) || c.status == Some(COMPLETED))
      && (c.status == Some(ESCALATED) ==> CoreOf(t.world) == core)
      && (c.status == Some(COMPLETED) ==>
            && c.verified == Some(true) && c.action.Some?
            && if RolledBackEarlier(t.history, c.action.value)
               then ActedInCycle(t.history) == [] && CoreOf(t.world) == core
               else ActedOnce(t, ActedInCycle(t.history))
                    && ParseCall(c.action.value, c.params).Some?
                    && CoreOf(t.world) == CoreEffect(core, ParseCall(c.action.value, c.params).value))
  {
    RunKeepsInv(revalidating, s, events, CoreOf(s.world));
  }
}
