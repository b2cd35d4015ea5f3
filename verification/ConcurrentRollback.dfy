/** Many approved rollbacks of one service at once: what revalidation prevents, and what it does not. */
module ConcurrentRollback {
  import opened Options
  import opened MockService
  import opened Records
  import opened Actions
  import opened Tools
  import opened Observations
  import opened Workflow
  import opened Durable
  import opened Legs
  import opened Witnesses

  /** Any number of runs over one world and one ledger. */
  datatype Fleet = Fleet(world: World, ledger: Ledger, runs: map<string, Checkpoint>)

  /** One node of one run, in the revalidating graph. */
  function RunOne(f: Fleet, id: string, o: Oracle): Fleet {
    if id !in f.runs then f
    else match RunBody(f.runs[id], f.world, f.ledger, o)
      case None => f
      case Some(body) =>
        Fleet(body.world, body.ledger,
              f.runs[id := Checkpoint(Next(true, f.runs[id].next, body.after), body.after)])
  }

  /** One node of one run that dies or survives, a run started again from START, or anyone else's change. */
  datatype FleetEvent = NodeOf(id: string, oracle: Oracle, crash: Crash) | StartOver(id: string) | Other(change: Change)

  /** A node run that gets as far as `crash` lets it. */
  function Ran(f: Fleet, id: string, o: Oracle, crash: Crash): Fleet {
    if id !in f.runs || RunBody(f.runs[id], f.world, f.ledger, o).None? then f
    else
      var body := RunBody(f.runs[id], f.world, f.ledger, o).value;
      match crash
      case BeforeEffect => f
      case BeforeLedger => f.(world := body.world)
      case BeforeAudit => f.(world := body.world, ledger := body.ledger)
      case BeforeCommit => f.(world := body.world, ledger := body.ledger)
      case Survives => RunOne(f, id, o)
  }

  function Apply(f: Fleet, e: FleetEvent): Fleet {
    match e
    case Other(c) => f.(world := Changed(f.world, c))
    case StartOver(id) =>
      if id in f.runs then f.(runs := f.runs[id := Checkpoint(Diagnose, f.runs[id].state)]) else f
    case NodeOf(id, o, crash) => Ran(f, id, o, crash)
  }

  /** What a node run or a new start does to a fleet is what it does to that run alone; the others keep their place. */
  lemma OneRunOfMany(f: Fleet, id: string, o: Oracle, crash: Crash, timestamp: int, log: seq<LogRecord>)
    requires id in f.runs
    ensures var s := Sys(f.runs[id], f.world, f.ledger, log, []);
      var d, again := Step(true, s, NodeRun(o, crash, timestamp)), Step(true, s, Event.StartAgain);
      && Apply(f, NodeOf(id, o, crash)) == Fleet(d.world, d.ledger, f.runs[id := d.checkpoint])
      && Apply(f, StartOver(id)) == Fleet(again.world, again.ledger, f.runs[id := again.checkpoint])
  {
    var s := Sys(f.runs[id], f.world, f.ledger, log, []);
    var body := RunBody(s.checkpoint, s.world, s.ledger, o);
    assert f.runs[id := f.runs[id]] == f.runs;
    if s.checkpoint.next == End {
      assert body.None?;
    }
  }

  /** `fs` is the course of the fleet under `events`. */
  ghost predicate IsCourse(fs: seq<Fleet>, events: seq<FleetEvent>) {
    && |fs| == |events| + 1
    && forall n :: 0 <= n < |events| ==> Follows(fs, events, n)
  }

  ghost predicate Follows(fs: seq<Fleet>, events: seq<FleetEvent>, n: nat)
    requires n < |events| && n + 1 < |fs|
  {
    fs[n + 1] == Apply(fs[n], events[n])
  }

  ghost predicate VersionIs(w: World, x: string, v: string) {
    x in w.services && w.services[x].Version() == v
  }

  /** The run waits to revalidate an approved rollback of `x`, fingerprinted at version `v`. */
  ghost predicate Holds(f: Fleet, id: string, x: string, v: string) {
    && id in f.runs && f.runs[id].next == Revalidate
    && var s := f.runs[id].state;
    && s.action.Some? && Parse(s.action.value) == Some(Parsed(Some(RollbackDeployment), x))
    && s.fingerprint.Some? && s.fingerprint.value.VersionFields? && s.fingerprint.value.version == v
  }

  /** From `w` to `u` the newest version of `x` was popped. */
  ghost predicate Popped(w: World, u: World, x: string) {
    && x in w.services && x in u.services
    && |w.services[x].versions| > 1
    && u.services[x].versions == w.services[x].versions[..|w.services[x].versions| - 1]
  }

  /** A fresh sweep agrees with the fingerprint the run holds. */
  ghost predicate Clean(w: World, s: AgentState) {
    && s.action.Some? && Gather(w).Some?
    && Fingerprint(Gather(w).value, s.action.value).Some?
    && Fingerprint(Gather(w).value, s.action.value) == s.fingerprint
  }

  lemma CleanPasses(c: Checkpoint, w: World, ledger: Ledger, o: Oracle)
    requires c.next == Revalidate && Clean(w, c.state)
    ensures var body := RunBody(c, w, ledger, o); body.Some? && body.value.after.drift == Some(false)
  {
    assert OnRevalidate(c.state, Gather(w).value).Some?;
  }

  lemma RevalidateBody(c: Checkpoint, w: World, ledger: Ledger, o: Oracle)
    requires c.next == Revalidate && c.state.action.Some?
    ensures var body := RunBody(c, w, ledger, o);
      && (Clean(w, c.state) ==> body.Some? && body.value.after.drift == Some(false))
      && (body.Some? ==>
            && body.value.world == w && body.value.ledger == ledger
            && body.value.after.action == c.state.action && body.value.after.runId == c.state.runId
            && (Clean(w, c.state) <==> body.value.after.drift != Some(true)))
  {
    if Clean(w, c.state) {
      CleanPasses(c, w, ledger, o);
    }
  }

  /** Revalidation only reads, and passes exactly when the fresh fingerprint is the held one. */
  lemma RevalidateOnly(f: Fleet, id: string, o: Oracle)
    requires id in f.runs && f.runs[id].next == Revalidate && f.runs[id].state.action.Some?
    ensures var g, s := RunOne(f, id, o), f.runs[id].state;
      && g.world == f.world && g.ledger == f.ledger && id in g.runs
      && (g.runs[id].next == PrepareExecution <==> Clean(f.world, s))
      && g.runs[id].state.action == s.action && g.runs[id].state.runId == s.runId
      && forall other | other in f.runs && other != id :: other in g.runs && g.runs[other] == f.runs[other]
  {
    RevalidateBody(f.runs[id], f.world, f.ledger, o);
  }

  lemma PrepareOnly(f: Fleet, id: string, o: Oracle)
    requires id in f.runs && f.runs[id].next == PrepareExecution && f.runs[id].state.action.Some?
    ensures var g, s := RunOne(f, id, o), f.runs[id].state;
      && g.world == f.world && g.ledger == f.ledger && id in g.runs
      && g.runs[id].next == Execute && g.runs[id].state.action == s.action
      && g.runs[id].state.key == Some(Key(s.runId, s.action.value))
      && forall other | other in f.runs && other != id :: other in g.runs && g.runs[other] == f.runs[other]
  {
  }

  lemma ChangeKeepsHistories(w: World, c: Change)
    requires GoodHistories(CoreOf(w))
    ensures GoodHistories(CoreOf(Changed(w, c)))
  {
    if c.ServiceChange? && c.service in w.services {
      assert NoAdjacentRepeat(CoreOf(w).services[c.service].versions);
      HistoryKept(w.services[c.service], c.op);
      CoreUpdate(w, c.service, After(w.services[c.service], c.op));
    }
  }

  lemma CompensateKeepsHistories(w: World, c: Compensation)
    requires GoodHistories(CoreOf(w)) && Compensate(w, c).Some?
    ensures GoodHistories(CoreOf(Compensate(w, c).value))
  {
    match c
    case Noop =>
    case Reinsert(_) =>
    case ScaleBack(s, n) => ServiceKeepsHistories(w, s, w.services[s].Scaled(n));
    case ConfigBack(s, k, v) => ServiceKeepsHistories(w, s, w.services[s].Configured(k, v.value));
    case DeployBack(s, v) =>
      assert NoAdjacentRepeat(CoreOf(w).services[s].versions);
      ServiceKeepsHistories(w, s, w.services[s].Deployed(v));
  }

  lemma ServiceKeepsHistories(w: World, s: string, t: Service)
    requires GoodHistories(CoreOf(w)) && s in w.services
    requires NoAdjacentRepeat(CoreOf(w).services[s].versions) ==> NoAdjacentRepeat(t.versions)
    ensures GoodHistories(CoreOf(w.(services := w.services[s := t])))
  {
    CoreUpdate(w, s, t);
  }

  lemma NodeKeepsHistories(f: Fleet, id: string, o: Oracle)
    requires GoodHistories(CoreOf(f.world))
    requires id in f.runs && f.runs[id].next != Execute
    ensures GoodHistories(CoreOf(RunOne(f, id, o).world))
  {
    var c := f.runs[id];
    if RunBody(c, f.world, f.ledger, o).Some? {
      ReadOnlyBody(c, f.world, f.ledger, o);
      if c.next == RollingBack {
        UndoBody(c, f.world, f.ledger, o);
        CompensateKeepsHistories(f.world, c.state.compensation.value);
      }
    }
  }

  lemma UndoBody(c: Checkpoint, w: World, ledger: Ledger, o: Oracle)
    requires c.next == RollingBack && RunBody(c, w, ledger, o).Some?
    ensures c.state.compensation.Some?
      && Compensate(w, c.state.compensation.value) == Some(RunBody(c, w, ledger, o).value.world)
  {
  }

  lemma ExecuteKeepsHistories(f: Fleet, id: string, o: Oracle)
    requires GoodHistories(CoreOf(f.world))
    requires id in f.runs && f.runs[id].next == Execute
    ensures GoodHistories(CoreOf(RunOne(f, id, o).world))
  {
    var s := f.runs[id].state;
    if s.action.Some? && s.key.Some? {
      var call := ParseCall(s.action.value, s.params);
      if call.Some? && Perform(f.world, call.value).Some? {
        PerformKeepsHistories(f.world, call.value);
      }
    }
  }

  /** However far it gets, a node run leaves the world as it was or as its surviving run would. */
  lemma RanWorld(f: Fleet, id: string, o: Oracle, crash: Crash)
    ensures Ran(f, id, o, crash).world == f.world || Ran(f, id, o, crash).world == RunOne(f, id, o).world
  {
  }

  lemma KeepsHistories(f: Fleet, e: FleetEvent)
    requires GoodHistories(CoreOf(f.world))
    ensures GoodHistories(CoreOf(Apply(f, e).world))
  {
    match e
    case Other(c) => ChangeKeepsHistories(f.world, c);
    case StartOver(_) =>
    case NodeOf(id, o, crash) =>
      RanWorld(f, id, o, crash);
      if id in f.runs {
        if f.runs[id].next == Execute {
          ExecuteKeepsHistories(f, id, o);
        } else {
          NodeKeepsHistories(f, id, o);
        }
      }
  }

  lemma PopChangesVersion(s: Service, t: Service)
    requires NoAdjacentRepeat(s.versions) && |s.versions| > 1 && t.versions == s.versions[..|s.versions| - 1]
    ensures t.Version() != s.Version()
  {
    assert s.versions[|s.versions| - 2] != s.versions[|s.versions| - 1];
  }

  lemma FingerprintShowsVersion(w: World, a: string, x: string)
    requires Gather(w).Some? && Parse(a) == Some(Parsed(Some(RollbackDeployment), x))
    requires Fingerprint(Gather(w).value, a).Some? && Fingerprint(Gather(w).value, a).value.VersionFields?
    ensures x in w.services && Fingerprint(Gather(w).value, a).value.version == w.services[x].Version()
  {
    ViewShowsVersion(w, KNOWN_SERVICES, x);
  }

  lemma ViewShowsVersion(w: World, names: seq<string>, x: string)
    requires GatherFrom(w, names).Some?
    ensures var o := GatherFrom(w, names).value;
      x in o.services ==> x in w.services && o.services[x].version == w.services[x].Version()
  {
  }

  lemma NextIsApplied(fs: seq<Fleet>, events: seq<FleetEvent>, n: nat)
    requires IsCourse(fs, events) && n < |events|
    ensures fs[n + 1] == Apply(fs[n], events[n])
  {
    assert Follows(fs, events, n);
  }

  lemma {:induction false} HistoriesStayGood(fs: seq<Fleet>, events: seq<FleetEvent>, n: nat)
    requires IsCourse(fs, events) && n < |fs|
    requires GoodHistories(CoreOf(fs[0].world))
    ensures GoodHistories(CoreOf(fs[n].world))
  {
    if n > 0 {
      HistoriesStayGood(fs, events, n - 1);
      NextIsApplied(fs, events, n - 1);
      KeepsHistories(fs[n - 1], events[n - 1]);
    }
  }

  /** Going from false at `lo` to true at `hi`, some step between turns true. */
  lemma {:induction false} SomeStepFlips(b: nat -> bool, lo: nat, hi: nat) returns (k: nat)
    requires lo <= hi && !b(lo) && b(hi)
    ensures lo <= k < hi && !b(k) && b(k + 1)
    decreases hi - lo
  {
    if b(lo + 1) {
      k := lo;
    } else {
      k := SomeStepFlips(b, lo + 1, hi);
    }
  }

  // ---- Every rollback was rechecked. ----

  predicate Cleared(c: Checkpoint) { c.next == PrepareExecution || c.next == Execute }

  ghost predicate RollsBack(c: Checkpoint, x: string) {
    c.state.action.Some? && Parse(c.state.action.value) == Some(Parsed(Some(RollbackDeployment), x))
  }

  /** A node of the revalidating graph that leads a rollback to `prepare_execution` or `execute` is `revalidate`,
      passing, or `prepare_execution` itself: the policy sends every rollback to the human. */
  lemma OnlyRechecked(c: Checkpoint, w: World, ledger: Ledger, o: Oracle, x: string)
    requires RunBody(c, w, ledger, o).Some?
    requires var after := RunBody(c, w, ledger, o).value.after;
      var d := Checkpoint(Next(true, c.next, after), after); Cleared(d) && RollsBack(d, x)
    ensures c.next == Revalidate || c.next == PrepareExecution
    ensures var after := RunBody(c, w, ledger, o).value.after;
      && after.action == c.state.action
      && (c.next == PrepareExecution ==> after.fingerprint == c.state.fingerprint)
  {
  }

  /** Event `r` is the passing `revalidate` of run `id`, and since then until `n` it has only been cleared to act. */
  ghost predicate RecheckedAt(fs: seq<Fleet>, events: seq<FleetEvent>, r: nat, n: nat, id: string)
    requires |fs| == |events| + 1
  {
    && r < n < |fs| && events[r].NodeOf? && events[r].id == id
    && id in fs[r].runs && fs[r].runs[id].next == Revalidate
    && forall k :: r < k <= n ==> HoldsFrom(fs, r, k, id)
  }

  ghost predicate HoldsFrom(fs: seq<Fleet>, r: nat, k: nat, id: string)
    requires r < k < |fs|
  {
    && id in fs[k].runs && id in fs[r + 1].runs && Cleared(fs[k].runs[id])
    && fs[k].runs[id].state.action == fs[r + 1].runs[id].state.action
    && fs[k].runs[id].state.fingerprint == fs[r + 1].runs[id].state.fingerprint
  }

  /** What one event does to a run that is then cleared to roll back. */
  lemma StepToCleared(f: Fleet, e: FleetEvent, id: string, x: string)
    requires id in Apply(f, e).runs && Cleared(Apply(f, e).runs[id]) && RollsBack(Apply(f, e).runs[id], x)
    ensures id in f.runs
    ensures var c, d := f.runs[id], Apply(f, e).runs[id];
      || (e.NodeOf? && e.id == id && c.next == Revalidate)
      || (Cleared(c) && d.state.action == c.state.action && d.state.fingerprint == c.state.fingerprint)
  {
    if e.NodeOf? && e.id == id && id in f.runs && RunBody(f.runs[id], f.world, f.ledger, e.oracle).Some? {
      if e.crash == Survives {
        OnlyRechecked(f.runs[id], f.world, f.ledger, e.oracle, x);
      }
    }
  }

  /** No run begins cleared to act. */
  ghost predicate NoneCleared(f: Fleet) { forall id | id in f.runs :: !Cleared(f.runs[id]) }

  lemma JustRechecked(fs: seq<Fleet>, events: seq<FleetEvent>, n: nat, id: string)
    requires |fs| == |events| + 1 && n + 1 < |fs| && events[n].NodeOf? && events[n].id == id
    requires id in fs[n].runs && fs[n].runs[id].next == Revalidate
    requires id in fs[n + 1].runs && Cleared(fs[n + 1].runs[id])
    ensures RecheckedAt(fs, events, n, n + 1, id)
  {
    assert HoldsFrom(fs, n, n + 1, id);
  }

  lemma StillRechecked(fs: seq<Fleet>, events: seq<FleetEvent>, r: nat, n: nat, id: string)
    requires |fs| == |events| + 1 && n + 1 < |fs| && RecheckedAt(fs, events, r, n, id)
    requires id in fs[n].runs && id in fs[n + 1].runs && Cleared(fs[n + 1].runs[id])
    requires fs[n + 1].runs[id].state.action == fs[n].runs[id].state.action
    requires fs[n + 1].runs[id].state.fingerprint == fs[n].runs[id].state.fingerprint
    ensures RecheckedAt(fs, events, r, n + 1, id)
  {
    assert HoldsFrom(fs, r, n, id) && HoldsFrom(fs, r, n + 1, id);
  }

  lemma ClearedBetween(fs: seq<Fleet>, events: seq<FleetEvent>, r: nat, n: nat, k: nat, id: string)
    requires |fs| == |events| + 1
    ensures RecheckedAt(fs, events, r, n, id) && r < k <= n ==> id in fs[k].runs && Cleared(fs[k].runs[id])
  {
    if RecheckedAt(fs, events, r, n, id) && r < k <= n {
      assert HoldsFrom(fs, r, k, id);
    }
  }

  lemma {:induction false} EveryRollbackRechecked(fs: seq<Fleet>, events: seq<FleetEvent>, n: nat, id: string,
      x: string)
    returns (r: nat)
    requires IsCourse(fs, events) && NoneCleared(fs[0]) && n < |fs|
    requires id in fs[n].runs && Cleared(fs[n].runs[id]) && RollsBack(fs[n].runs[id], x)
    ensures RecheckedAt(fs, events, r, n, id)
  {
    var m := n - 1;
    NextIsApplied(fs, events, m);
    StepToCleared(fs[m], events[m], id, x);
    if events[m].NodeOf? && events[m].id == id && fs[m].runs[id].next == Revalidate {
      r := m;
      JustRechecked(fs, events, m, id);
    } else {
      r := EveryRollbackRechecked(fs, events, m, id, x);
      StillRechecked(fs, events, r, m, id);
    }
  }

  /** The passing `revalidate` left the fingerprint of the world it saw. */
  lemma PassedFingerprint(c: Checkpoint, w: World, ledger: Ledger, o: Oracle)
    requires c.next == Revalidate && RunBody(c, w, ledger, o).Some?
    ensures var after := RunBody(c, w, ledger, o).value.after;
      && after.action.Some? && Gather(w).Some?
      && after.fingerprint.Some? && after.fingerprint == Fingerprint(Gather(w).value, after.action.value)
  {
  }

  lemma RecheckSawVersion(fs: seq<Fleet>, events: seq<FleetEvent>, r: nat, n: nat, id: string, x: string, v: string)
    requires IsCourse(fs, events) && RecheckedAt(fs, events, r, n, id)
    requires id in fs[n].runs && RollsBack(fs[n].runs[id], x) && HoldsVersion(fs[n].runs[id], v)
    ensures VersionIs(fs[r].world, x, v)
  {
    NextIsApplied(fs, events, r);
    assert HoldsFrom(fs, r, n, id) && HoldsFrom(fs, r, r + 1, id);
    var f, o := fs[r], events[r].oracle;
    assert RunBody(f.runs[id], f.world, f.ledger, o).Some? && events[r].crash == Survives;
    PassedFingerprint(f.runs[id], f.world, f.ledger, o);
    FingerprintShowsVersion(f.world, fs[n].runs[id].state.action.value, x);
  }

  ghost predicate HoldsVersion(c: Checkpoint, v: string) {
    c.state.fingerprint.Some? && c.state.fingerprint.value.VersionFields? && c.state.fingerprint.value.version == v
  }

  /** Event `i` executes run `id`'s rollback of `x`, and pops the newest version. */
  ghost predicate PopsAt(fs: seq<Fleet>, events: seq<FleetEvent>, i: nat, id: string, x: string)
    requires i < |events| && i + 1 < |fs|
  {
    && events[i].NodeOf? && events[i].id == id
    && id in fs[i].runs && fs[i].runs[id].next == Execute && RollsBack(fs[i].runs[id], x)
    && Popped(fs[i].world, fs[i + 1].world, x)
  }

  /** Any number of runs of the revalidating graph, in any interleaving, dying, being continued and started again, and
      anyone else's changes: if a run pops version `v` of a service, and later a run whose approval was given for `v`
      pops one too, then that second run had passed `revalidate` before the first one popped - and has
      been on its way to execute ever since - or some step in between brought the version back. */
  lemma NoDoublePop(fs: seq<Fleet>, events: seq<FleetEvent>, i: nat, j: nat, p: string, q: string, x: string, v: string)
    returns (interleaved: bool, k: nat)
    requires IsCourse(fs, events) && NoneCleared(fs[0]) && GoodHistories(CoreOf(fs[0].world))
    requires i < j < |events| && PopsAt(fs, events, i, p, x) && PopsAt(fs, events, j, q, x)
    requires VersionIs(fs[i].world, x, v) && HoldsVersion(fs[j].runs[q], v)
    ensures if interleaved then k < i && RecheckedAt(fs, events, k, j, q)
            else i < k < j && !VersionIs(fs[k].world, x, v) && VersionIs(fs[k + 1].world, x, v)
  {
    var r := EveryRollbackRechecked(fs, events, j, q, x);
    RecheckSawVersion(fs, events, r, j, q, x, v);
    if r < i {
      interleaved, k := true, r;
    } else {
      HistoriesStayGood(fs, events, i);
      assert NoAdjacentRepeat(CoreOf(fs[i].world).services[x].versions);
      PopChangesVersion(fs[i].world.services[x], fs[i + 1].world.services[x]);
      assert r != i;
      interleaved := false;
      k := SomeStepFlips((n: nat) => n < |fs| && VersionIs(fs[n].world, x, v), i + 1, r);
    }
  }

  /** Without interleaving nothing is popped twice: if no other pop falls between the second run's `revalidate` and its
      own, some step brought the version back. */
  lemma AtomicNoDoublePop(fs: seq<Fleet>, events: seq<FleetEvent>, i: nat, j: nat, p: string, q: string, x: string,
      v: string)
    returns (k: nat)
    requires IsCourse(fs, events) && NoneCleared(fs[0]) && GoodHistories(CoreOf(fs[0].world))
    requires i < j < |events| && PopsAt(fs, events, i, p, x) && PopsAt(fs, events, j, q, x)
    requires VersionIs(fs[i].world, x, v) && HoldsVersion(fs[j].runs[q], v)
    requires q in fs[i].runs && !Cleared(fs[i].runs[q])
    ensures i < k < j && !VersionIs(fs[k].world, x, v) && VersionIs(fs[k + 1].world, x, v)
  {
    var interleaved;
    interleaved, k := NoDoublePop(fs, events, i, j, p, q, x, v);
    ClearedBetween(fs, events, k, j, i, q);
  }

  /** Interleaved, both pop: two runs revalidate before either executes. */
  lemma InterleavedBothPop(f: Fleet, p: string, q: string, o: Oracle, x: string, v: string)
    requires p != q && Holds(f, p, x, v) && Holds(f, q, x, v)
    requires f.runs[p].state.runId == p && f.runs[q].state.runId == q
    requires Gather(f.world).Some?
    requires Fingerprint(Gather(f.world).value, f.runs[p].state.action.value) == f.runs[p].state.fingerprint
    requires Fingerprint(Gather(f.world).value, f.runs[q].state.action.value) == f.runs[q].state.fingerprint
    requires |f.world.services[x].versions| > 2
    requires Key(p, f.runs[p].state.action.value) !in f.ledger && Key(q, f.runs[q].state.action.value) !in f.ledger
    requires Key(p, f.runs[p].state.action.value) != Key(q, f.runs[q].state.action.value)
    ensures var g := RunOne(RunOne(RunOne(RunOne(f, p, o), q, o), p, o), q, o);
      var h := RunOne(RunOne(g, p, o), q, o);
      && x in h.world.services
      && h.world.services[x].versions == f.world.services[x].versions[..|f.world.services[x].versions| - 2]
  {
    BothRevalidate(f, p, q, o);
    var f2 := RunOne(RunOne(f, p, o), q, o);
    BothPrepare(f2, p, q, o);
    BothExecute(RunOne(RunOne(f2, p, o), q, o), p, q, o, x);
  }

  lemma BothRevalidate(f: Fleet, p: string, q: string, o: Oracle)
    requires p != q && p in f.runs && q in f.runs && f.runs[p].next == Revalidate && f.runs[q].next == Revalidate
    requires Clean(f.world, f.runs[p].state) && Clean(f.world, f.runs[q].state)
    ensures var g := RunOne(RunOne(f, p, o), q, o);
      && g.world == f.world && g.ledger == f.ledger && p in g.runs && q in g.runs
      && g.runs[p].next == PrepareExecution && g.runs[q].next == PrepareExecution
      && g.runs[p].state.action == f.runs[p].state.action && g.runs[p].state.runId == f.runs[p].state.runId
      && g.runs[q].state.action == f.runs[q].state.action && g.runs[q].state.runId == f.runs[q].state.runId
  {
    RevalidateOnly(f, p, o);
    RevalidateOnly(RunOne(f, p, o), q, o);
  }

  lemma BothPrepare(f: Fleet, p: string, q: string, o: Oracle)
    requires p != q && p in f.runs && q in f.runs
    requires f.runs[p].next == PrepareExecution && f.runs[q].next == PrepareExecution
    requires f.runs[p].state.action.Some? && f.runs[q].state.action.Some?
    ensures var g := RunOne(RunOne(f, p, o), q, o);
      && g.world == f.world && g.ledger == f.ledger && p in g.runs && q in g.runs
      && g.runs[p].next == Execute && g.runs[q].next == Execute
      && g.runs[p].state.action == f.runs[p].state.action && g.runs[q].state.action == f.runs[q].state.action
      && g.runs[p].state.key == Some(Key(f.runs[p].state.runId, f.runs[p].state.action.value))
      && g.runs[q].state.key == Some(Key(f.runs[q].state.runId, f.runs[q].state.action.value))
  {
    PrepareOnly(f, p, o);
    PrepareOnly(RunOne(f, p, o), q, o);
  }

  ghost predicate ReadyToPop(g: Fleet, id: string, x: string)
    requires id in g.runs
  {
    var s := g.runs[id].state;
    && s.action.Some? && s.key.Some? && s.key.value !in g.ledger
    && Parse(s.action.value) == Some(Parsed(Some(RollbackDeployment), x))
  }

  /** `execute` under a new key pops the newest version and leaves the other runs alone. */
  lemma PopsOnce(g: Fleet, id: string, o: Oracle, x: string)
    requires id in g.runs && g.runs[id].next == Execute && ReadyToPop(g, id, x)
    requires x in g.world.services && |g.world.services[x].versions| > 1
    ensures var h := RunOne(g, id, o);
      && h.runs.Keys == g.runs.Keys && (forall other | other in g.runs && other != id :: h.runs[other] == g.runs[other])
      && h.ledger.Keys == g.ledger.Keys + {g.runs[id].state.key.value}
      && Popped(g.world, h.world, x)
  {
    var s := g.runs[id].state;
    var call := RollbackCall(x);
    assert ParseCall(s.action.value, s.params) == Some(call);
    assert Perform(g.world, call).Some?;
  }

  lemma BothExecute(g: Fleet, p: string, q: string, o: Oracle, x: string)
    requires p != q && p in g.runs && q in g.runs && g.runs[p].next == Execute && g.runs[q].next == Execute
    requires ReadyToPop(g, p, x) && ReadyToPop(g, q, x)
    requires g.runs[p].state.key != g.runs[q].state.key
    requires x in g.world.services && |g.world.services[x].versions| > 2
    ensures var h := RunOne(RunOne(g, p, o), q, o);
      && x in h.world.services
      && h.world.services[x].versions == g.world.services[x].versions[..|g.world.services[x].versions| - 2]
  {
    PopsOnce(g, p, o, x);
    PopsOnce(RunOne(g, p, o), q, o, x);
  }

  // ---- Such a fleet exists. ----

  function NewRun(id: string, w: World): Sys { Sys(Checkpoint(Diagnose, Workflow.NewThread(id)), w, map[], [], []) }

  lemma DiagnosedAndAsked(id: string, w: World, o: Oracle, x: string) returns (events: seq<Event>, t: Sys)
    requires Gather(w).Some? && x in Gather(w).value.services
    requires o.tool == ToolName(RollbackDeployment) && o.target == x && o.decision == Approved && o.edited.None?
    ensures Leads(true, NewRun(id, w), events, t, 5)
    ensures var c := t.checkpoint.state;
      && t.checkpoint.next == Revalidate && t.world == w && c.runId == id && c.action == Some(ActionOf(o))
      && c.fingerprint == Fingerprint(Gather(w).value, ActionOf(o))
  {
    var e1, m := Diagnosing(true, NewRun(id, w), o);
    RollbackIsHigh(m.checkpoint.state, o, x);
    var e2, u := Asking(true, m, o);
    ApprovedIsRechecked(u.checkpoint.state);
    Chain(true, NewRun(id, w), e1, m, 1, e2, u, 4);
    events, t := e1 + e2, u;
  }

  /** A new run that proposes the rollback of `x`, has it approved, and now waits to be revalidated. */
  lemma ApprovedRollback(id: string, w: World, o: Oracle, x: string) returns (events: seq<Event>, t: Sys)
    requires Gather(w).Some? && x in Gather(w).value.services && x in w.services
    requires o.tool == ToolName(RollbackDeployment) && o.target == x && o.decision == Approved && o.edited.None?
    ensures Leads(true, NewRun(id, w), events, t, 5)
    ensures var c := t.checkpoint.state;
      && t.checkpoint.next == Revalidate && t.world == w && c.runId == id
      && c.action == Some(ActionOf(o)) && Parse(ActionOf(o)) == Some(Parsed(Some(RollbackDeployment), x))
      && c.fingerprint == Fingerprint(Gather(w).value, ActionOf(o))
      && c.fingerprint.Some? && c.fingerprint.value.VersionFields?
      && c.fingerprint.value.version == w.services[x].Version()
  {
    ToolNameParses(RollbackDeployment, x);
    events, t := DiagnosedAndAsked(id, w, o, x);
    RollbackPrint(w, KNOWN_SERVICES, x);
  }

  lemma RollbackIsHigh(c: AgentState, o: Oracle, x: string)
    requires o.tool == ToolName(RollbackDeployment) && o.target == x
    requires c.observations.Some? && x in c.observations.value.services
    ensures Parse(ActionOf(o)) == Some(Parsed(Some(RollbackDeployment), x))
    ensures Proposable(c, o) && PolicyTier(c, o) == HighRisk
  {
    ToolNameParses(RollbackDeployment, x);
  }

  lemma RollbackPrint(w: World, names: seq<string>, x: string)
    requires GatherFrom(w, names).Some? && x in GatherFrom(w, names).value.services
    ensures x in w.services
    ensures var fields := RelevantFields(GatherFrom(w, names).value, Some(RollbackDeployment), x);
      fields.Some? && fields.value.VersionFields? && fields.value.version == w.services[x].Version()
  {
    ViewShowsVersion(w, names, x);
  }

  lemma DifferentRunsDifferentKeys(p: string, q: string, a: string)
    ensures Key(p, a) == Key(q, a) ==> p == q
  {
    if Key(p, a) == Key(q, a) {
      assert |Key(p, a)| == |p| + 1 + |a| && |Key(q, a)| == |q| + 1 + |a|;
      assert p == Key(p, a)[..|p|] && q == Key(q, a)[..|q|];
    }
  }

  /** Two new runs over one sandbox, each with an approved rollback of the same service, interleaved: both pop. */
  lemma InterleavedRunsBothPop(w: World, p: string, q: string, o: Oracle, x: string)
    returns (e1: seq<Event>, t1: Sys, e2: seq<Event>, t2: Sys)
    requires p != q && Gather(w).Some? && x in Gather(w).value.services && x in w.services
    requires |w.services[x].versions| > 2
    requires o.tool == ToolName(RollbackDeployment) && o.target == x && o.decision == Approved && o.edited.None?
    ensures Leads(true, NewRun(p, w), e1, t1, 5) && Leads(true, NewRun(q, w), e2, t2, 5)
    ensures var f := Fleet(w, map[], map[p := t1.checkpoint, q := t2.checkpoint]);
      var g := RunOne(RunOne(RunOne(RunOne(f, p, o), q, o), p, o), q, o);
      var h := RunOne(RunOne(g, p, o), q, o);
      && Holds(f, p, x, w.services[x].Version()) && Holds(f, q, x, w.services[x].Version())
      && x in h.world.services
      && h.world.services[x].versions == w.services[x].versions[..|w.services[x].versions| - 2]
  {
    e1, t1 := ApprovedRollback(p, w, o, x);
    e2, t2 := ApprovedRollback(q, w, o, x);
    DifferentRunsDifferentKeys(p, q, ActionOf(o));
    var f := Fleet(w, map[], map[p := t1.checkpoint, q := t2.checkpoint]);
    InterleavedBothPop(f, p, q, o, x, w.services[x].Version());
  }

  /** The sandbox as built satisfies it: three versions, and both runs leave just one. */
  lemma BuiltSandboxLosesTwoVersions(table: Table, p: string, q: string, o: Oracle)
    returns (w: World, e1: seq<Event>, t1: Sys, e2: seq<Event>, t2: Sys)
    requires p != q && o.tool == ToolName(RollbackDeployment) && o.target == "service_c"
    requires o.decision == Approved && o.edited.None?
    ensures w == World(Built(KNOWN_SERVICES, NewService(true, 1)), table)
    ensures Leads(true, NewRun(p, w), e1, t1, 5) && Leads(true, NewRun(q, w), e2, t2, 5)
    ensures var f := Fleet(w, map[], map[p := t1.checkpoint, q := t2.checkpoint]);
      var g := RunOne(RunOne(RunOne(RunOne(f, p, o), q, o), p, o), q, o);
      var h := RunOne(RunOne(g, p, o), q, o);
      o.target in h.world.services && |h.world.services[o.target].versions| == 1
  {
    w := World(Built(KNOWN_SERVICES, NewService(true, 1)), table);
    assert o.target == KNOWN_SERVICES[2] && HasDisk(o.target);
    BuiltGathers(KNOWN_SERVICES, NewService(true, 1), table, o.target);
    e1, t1, e2, t2 := InterleavedRunsBothPop(w, p, q, o, o.target);
  }
}
