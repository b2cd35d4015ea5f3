/** What executing, verifying and undoing an action does to the sandbox, field by field, from the action's text
    (src/agent/execution.py, src/tools/mutating.py). */
module Effects {
  import opened Options
  import opened MockService
  import opened Records
  import opened Actions
  import opened Tools

  /** The names the dispatch knows. */
  lemma NamesParse(target: string)
    ensures Parse("restart_service" + ":" + target) == Some(Parsed(Some(RestartService), target))
    ensures Parse("scale_service" + ":" + target) == Some(Parsed(Some(ScaleService), target))
    ensures Parse("delete_records" + ":" + target) == Some(Parsed(Some(Tool.DeleteRecords), target))
    ensures Parse("clear_cache" + ":" + target) == Some(Parsed(Some(ClearCache), target))
    ensures Parse("apply_config_change" + ":" + target) == Some(Parsed(Some(ApplyConfigChange), target))
    ensures Parse("rollback_deployment" + ":" + target) == Some(Parsed(Some(RollbackDeployment), target))
  {
    ToolNameParses(RestartService, target);
    ToolNameParses(ScaleService, target);
    ToolNameParses(Tool.DeleteRecords, target);
    ToolNameParses(ClearCache, target);
    ToolNameParses(ApplyConfigChange, target);
    ToolNameParses(RollbackDeployment, target);
  }

  /** From `w` to `v` at most the service `x` changed. */
  ghost predicate OnlyService(w: World, v: World, x: string) {
    && v.table == w.table && v.services.Keys == w.services.Keys
    && forall n | n in w.services && n != x :: v.services[n] == w.services[n]
  }

  /** `out` performed under a new key and recorded just what it did. */
  ghost predicate RecordedAs(ledger: Ledger, key: string, out: Outcome) {
    && out.performed && out.ledger == ledger[key := out.entry]
  }

  /** "restart_service:x": load and outage to baseline, the disk stays, one restart more; nothing to undo. */
  lemma RestartDoes(w: World, ledger: Ledger, x: string, params: Params, key: string)
    requires key !in ledger
    ensures var out := ExecuteAction(w, ledger, "restart_service" + ":" + x, params, key);
      if x !in w.services then out.None?
      else
        && out.Some? && RecordedAs(ledger, key, out.value) && OnlyService(w, out.value.world, x)
        && var s, t := w.services[x], out.value.world.services[x];
        && Quiesced(s, t) && t.restarts == s.restarts + 1
        && t.replicas == s.replicas && t.config == s.config && t.versions == s.versions
        && out.value.entry.result == Restarted(t.restarts, t.Status())
        && out.value.entry.compensation == Noop
  {
    NamesParse(x);
    if x in w.services {
      RequestMeans(w.services[x], Restart);
    }
  }

  /** "scale_service:x": the replica count becomes the given one, or 2; the undo is the old count. */
  lemma ScaleDoes(w: World, ledger: Ledger, x: string, params: Params, key: string)
    requires key !in ledger
    ensures var out := ExecuteAction(w, ledger, "scale_service" + ":" + x, params, key);
      if x !in w.services || params.replicas.Malformed? then out.None?
      else
        && out.Some? && RecordedAs(ledger, key, out.value) && OnlyService(w, out.value.world, x)
        && var s, t := w.services[x], out.value.world.services[x];
        && t.replicas == (if params.replicas.Given? then params.replicas.value else 2)
        && SameLoad(s, t) && t.config == s.config && t.versions == s.versions
        && out.value.entry.result == Result.Scaled(s.replicas, t.replicas)
        && out.value.entry.compensation == ScaleBack(x, s.replicas)
  {
    NamesParse(x);
    if x in w.services && params.replicas.Given? {
      RequestMeans(w.services[x], Scale(params.replicas.value));
    } else if x in w.services {
      RequestMeans(w.services[x], Scale(2));
    }
  }

  /** "clear_cache:x": the disk goes to 30 percent and no other metric changes; refused without a disk. */
  lemma ClearDoes(w: World, ledger: Ledger, x: string, params: Params, key: string)
    requires key !in ledger
    ensures var out := ExecuteAction(w, ledger, "clear_cache" + ":" + x, params, key);
      if x !in w.services || !w.services[x].hasDisk then out.None?
      else
        && out.Some? && RecordedAs(ledger, key, out.value) && OnlyService(w, out.value.world, x)
        && var s, t := w.services[x], out.value.world.services[x];
        && t.disk == 30.0 && (forall f :: f in t.faults <==> f in s.faults && f != DiskFull)
        && SameLoad(s, t.(disk := s.disk, faults := s.faults))
        && t.replicas == s.replicas && t.config == s.config && t.versions == s.versions
        && out.value.entry.result == Cleaned(30.0) && out.value.entry.compensation == Noop
  {
    NamesParse(x);
    if x in w.services {
      RequestMeans(w.services[x], CleanDisk);
    }
  }

  /** "apply_config_change:x": the given key gets the given value; both are needed. */
  lemma ConfigDoes(w: World, ledger: Ledger, x: string, params: Params, key: string)
    requires key !in ledger
    ensures var out := ExecuteAction(w, ledger, "apply_config_change" + ":" + x, params, key);
      if x !in w.services || !params.key.Given? || !params.value.Given? then out.None?
      else
        && out.Some? && RecordedAs(ledger, key, out.value) && OnlyService(w, out.value.world, x)
        && var s, t := w.services[x], out.value.world.services[x];
        var k := params.key.value;
        var before := if k in s.config then Some(s.config[k]) else None;
        && k in t.config && t.config[k] == params.value.value
        && (forall j | j != k :: (j in t.config <==> j in s.config) && (j in s.config ==> t.config[j] == s.config[j]))
        && SameLoad(s, t) && t.replicas == s.replicas && t.versions == s.versions
        && out.value.entry.result == Result.Configured(k, before, params.value.value)
        && out.value.entry.compensation == ConfigBack(x, k, before)
  {
    NamesParse(x);
    if x in w.services && params.key.Given? && params.value.Given? {
      RequestMeans(w.services[x], SetConfig(params.key.value, params.value.value));
    }
  }

  /** "rollback_deployment:x": the newest of at least two versions goes, and with it what a restart clears. */
  lemma RollbackDoes(w: World, ledger: Ledger, x: string, params: Params, key: string)
    requires key !in ledger
    ensures var out := ExecuteAction(w, ledger, "rollback_deployment" + ":" + x, params, key);
      if x !in w.services || |w.services[x].versions| < 2 then out.None?
      else
        && out.Some? && RecordedAs(ledger, key, out.value) && OnlyService(w, out.value.world, x)
        && var s, t := w.services[x], out.value.world.services[x];
        var n := |s.versions| - 1;
        && t.versions == s.versions[..n] && Quiesced(s, t) && t.restarts == s.restarts
        && t.replicas == s.replicas && t.config == s.config
        && out.value.entry.result == RolledBackTo(s.versions[n], s.versions[n - 1])
        && out.value.entry.compensation == DeployBack(x, s.versions[n])
  {
    NamesParse(x);
    if x in w.services {
      RequestMeans(w.services[x], Rollback);
    }
  }

  /** The rows a delete takes: those of the given ids that exist, or the first million of the kind. */
  ghost predicate Taken(t: Table, kind: string, ids: Option<seq<int>>, taken: seq<int>) {
    match ids
    case Some(wanted) => forall i :: i in taken <==> i in wanted && i in t.rows
    case None =>
      && (forall i | i in taken :: i in t.rows && t.rows[i].kind == kind)
      && (forall i, j | i in t.rows && t.rows[i].kind == kind && i !in taken && j in taken :: j < i)
      && |taken| == (if |IdsOfKind(t.rows, kind)| < 1_000_000 then |IdsOfKind(t.rows, kind)| else 1_000_000)
  }

  lemma TakenByKind(t: Table, kind: string)
    ensures Taken(t, kind, None, IdsIn(ByKind(t, Some(kind), NO_LIMIT)))
  {
    var rows := ByKind(t, Some(kind), NO_LIMIT);
    ByKindMeans(t, Some(kind), NO_LIMIT);
    forall i | i in IdsIn(rows)
      ensures i in t.rows && t.rows[i].kind == kind
    {
      var k :| 0 <= k < |rows| && IdsIn(rows)[k] == i;
      assert rows[k].id == i;
    }
    forall i, j | i in t.rows && t.rows[i].kind == kind && i !in IdsIn(rows) && j in IdsIn(rows)
      ensures j < i
    {
      var k :| 0 <= k < |rows| && IdsIn(rows)[k] == j;
      assert i in IdsOfKind(t.rows, kind) && rows[k].id < i;
    }
  }

  /** What a delete of the taken rows leaves, reports and registers. */
  ghost predicate Gone(w: World, v: World, kind: string, ids: Option<seq<int>>, r: Result, c: Compensation) {
    && v.services == w.services && v.table.nextId == w.table.nextId
    && r.Deleted? && r.kind == kind && c.Reinsert? && IdsIn(c.rows) == r.ids && Snapshot(w.table.rows, c.rows)
    && Taken(w.table, kind, ids, r.ids)
    && (forall i :: i in v.table.rows <==> i in w.table.rows && i !in r.ids)
    && (forall i | i in v.table.rows :: v.table.rows[i] == w.table.rows[i])
  }

  lemma DeletePerforms(w: World, kind: string, ids: Option<seq<int>>)
    ensures var p := Perform(w, DeleteCall(kind, ids)).value; Gone(w, p.world, kind, ids, p.result, p.compensation)
  {
    RowsTaken(w.table, kind, ids);
  }

  /** The ids given with a delete, if any. */
  function IdsGiven(params: Params): Option<seq<int>> {
    match params.ids
    case Given(ids) => Some(ids)
    case Missing => None
    case Malformed => None
  }

  /** "delete_records:kind": the taken rows go and no other; the undo holds each of them as it was. */
  lemma DeleteDoes(w: World, ledger: Ledger, kind: string, params: Params, key: string)
    requires key !in ledger
    ensures var out := ExecuteAction(w, ledger, "delete_records" + ":" + kind, params, key);
      if params.ids.Malformed? then out.None?
      else
        && out.Some? && RecordedAs(ledger, key, out.value)
        && Gone(w, out.value.world, kind, IdsGiven(params), out.value.entry.result, out.value.entry.compensation)
  {
    NamesParse(kind);
    if !params.ids.Malformed? {
      var ids := IdsGiven(params);
      DeletePerforms(w, kind, ids);
      var p := Perform(w, DeleteCall(kind, ids)).value;
      assert Gone(w, p.world, kind, IdsGiven(params), p.result, p.compensation);
      assert ExecuteAction(w, ledger, "delete_records" + ":" + kind, params, key) ==
        RunIdempotent(w, ledger, key, DeleteCall(kind, ids));
    }
  }

  lemma RowsTaken(t: Table, kind: string, ids: Option<seq<int>>)
    ensures var rows := RowsToDelete(t, kind, ids); Snapshot(t.rows, rows) && Taken(t, kind, ids, IdsIn(rows))
  {
    if ids.Some? {
      ByIdsSnapshot(t, ids.value);
    } else {
      TakenByKind(t, kind);
      ByKindSnapshot(t, Some(kind), NO_LIMIT);
    }
  }

  /** A text without a colon or with another tool raises, whatever the world. */
  lemma OthersRaise(w: World, ledger: Ledger, action: string, params: Params, key: string)
    requires ExecuteAction(w, ledger, action, params, key).Some?
    ensures exists tool, target :: action == tool + ":" + target && tool in {
      "restart_service", "scale_service", "delete_records", "clear_cache", "apply_config_change", "rollback_deployment"}
  {
    var parsed := Parse(action).value;
    ParseSound(action, parsed.tool.value);
    var name := ToolName(parsed.tool.value);
    assert action == name + ":" + parsed.target;
  }

  // ---- Verifying and undoing. ----

  /** A service action passes exactly if its target's metrics are all below the thresholds, whatever it reported. */
  lemma ServiceVerdict(w: World, tool: Tool, x: string, result: Result)
    requires tool != Tool.DeleteRecords
    ensures var verdict := VerifyAction(w, Join(ToolName(tool), x), result);
      if x !in w.services then verdict.None?
      else
        var s := w.services[x];
        verdict == Some(!s.down && s.errorRate < 0.1 && s.memory < 75.0 && s.cpu < 75.0
                        && (s.hasDisk ==> s.disk < 75.0))
  {
    ToolNameParses(tool, x);
    if x in w.services {
      HealthExactly(w.services[x]);
    }
  }

  /** A delete passes exactly if no id it reports is that of a row of its kind with fewer than a million such rows of
      smaller id. */
  lemma DeleteVerdict(w: World, kind: string, ids: seq<int>)
    ensures VerifyAction(w, "delete_records" + ":" + kind, Deleted(kind, ids)) ==
      Some(forall i | i in ids :: !AmongFirstMillion(w.table, kind, i))
  {
    NamesParse(kind);
    forall i
      ensures i in IdsIn(ByKind(w.table, Some(kind), NO_LIMIT)) <==> AmongFirstMillion(w.table, kind, i)
    {
      ListedExactly(w.table, kind, i);
    }
  }

  ghost predicate AmongFirstMillion(t: Table, kind: string, i: int) {
    i in t.rows && t.rows[i].kind == kind && |set j | j in t.rows && t.rows[j].kind == kind && j < i| < 1_000_000
  }

  lemma ListedExactly(t: Table, kind: string, i: int)
    ensures i in IdsIn(ByKind(t, Some(kind), NO_LIMIT)) <==> AmongFirstMillion(t, kind, i)
  {
    var all := IdsOfKind(t.rows, kind);
    IdsOfTake(t.rows, Ascending(all), NO_LIMIT);
    if i in all {
      FirstByRank(all, NO_LIMIT, i);
      assert Below(all, i) == set j | j in t.rows && t.rows[j].kind == kind && j < i;
    }
  }

  /** Right after a fault in a healthy service, scaling it passes its verification only for the low loads, and
      restarting it passes for every fault but a medium or high load on the disk. */
  lemma FaultVerdicts(w: World, x: string, fault: FaultType, rate: FaultRate, n: int, result: Result)
    requires x in w.services && w.services[x] == NewService(HasDisk(x), n) && (fault == DiskFull ==> HasDisk(x))
    ensures var sick := w.services[x].Faulted(fault, rate).value;
      var v := w.(services := w.services[x := sick]);
      && (VerifyAction(v, Join(ToolName(ScaleService), x), result) == Some(true)
          <==> rate == LowRate && fault in {MemoryLeak, CpuSpike, DiskFull})
      && (VerifyAction(w.(services := w.services[x := sick.Restarted()]), Join(ToolName(RestartService), x), result)
            == Some(true)
          <==> fault != DiskFull || rate == LowRate)
  {
    var sick := w.services[x].Faulted(fault, rate).value;
    FaultMeans(w.services[x], fault, rate);
    RequestMeans(sick, Restart);
    ServiceVerdict(w.(services := w.services[x := sick]), ScaleService, x, result);
    ServiceVerdict(w.(services := w.services[x := sick.Restarted()]), RestartService, x, result);
  }

  /** A compensation sets just the one value it names, puts the rows back, or does nothing; it fails for an unknown
      service and for a configuration value that was absent. */
  lemma UndoDoes(w: World, c: Compensation)
    ensures var done := Compensate(w, c);
      match c
      case Noop => done == Some(w)
      case Reinsert(rows) => done.Some? && done.value.services == w.services
        && forall i | i !in IdsIn(rows) ::
             (i in done.value.table.rows <==> i in w.table.rows)
             && (i in w.table.rows ==> done.value.table.rows[i] == w.table.rows[i])
      case ScaleBack(x, n) => UndoneIn(w, x, done, true) && (done.Some? ==>
        var s, t := w.services[x], done.value.services[x];
        SameLoad(s, t) && t.replicas == n && t.config == s.config && t.versions == s.versions)
      case ConfigBack(x, k, v) => UndoneIn(w, x, done, v.Some?) && (done.Some? ==>
        var s, t := w.services[x], done.value.services[x];
        SameLoad(s, t) && t.replicas == s.replicas && t.versions == s.versions
        && k in t.config && t.config[k] == v.value
        && forall j | j != k :: (j in t.config <==> j in s.config) && (j in s.config ==> t.config[j] == s.config[j]))
      case DeployBack(x, v) => UndoneIn(w, x, done, true) && (done.Some? ==>
        var s, t := w.services[x], done.value.services[x];
        SameLoad(s, t) && t.replicas == s.replicas && t.config == s.config
        && t.versions == (if s.versions[|s.versions| - 1] == v then s.versions else s.versions + [v]))
  {
    match c
    case Noop =>
    case Reinsert(rows) => OthersStay(w.table, rows);
    case ScaleBack(x, n) =>
    case ConfigBack(x, k, v) =>
    case DeployBack(x, v) =>
  }

  ghost predicate UndoneIn(w: World, x: string, done: Option<World>, possible: bool) {
    && (done.Some? <==> x in w.services && possible)
    && (done.Some? ==> OnlyService(w, done.value, x))
  }

  lemma {:induction false} OthersStay(t: Table, rows: seq<Row>)
    ensures var u := InsertMany(t, Reinserted(rows));
      forall i | i !in IdsIn(rows) :: (i in u.rows <==> i in t.rows) && (i in t.rows ==> u.rows[i] == t.rows[i])
  {
    if rows != [] {
      var n := |rows| - 1;
      OthersStay(t, rows[..n]);
      assert Reinserted(rows)[..n] == Reinserted(rows[..n]);
      assert IdsIn(rows) == IdsIn(rows[..n]) + [rows[n].id];
    }
  }
}
