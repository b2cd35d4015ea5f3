/** What executing, verifying and compensating an action does to the world and the ledger
    (src/tools/mutating.py, src/agent/execution.py), as functions on values. */
module Tools {
  import opened Options
  import opened MockService
  import opened Records
  import opened Actions

  const DEFAULT_SCALE_REPLICAS: int := 2
  const NO_LIMIT: nat := 1_000_000

  datatype World = World(services: map<string, Service>, table: Table)

  /** One entry of the free-form parameter dict: absent (for `ids` also null), refused by the schema, or usable. */
  datatype Arg<T> = Missing | Malformed | Given(value: T)
  datatype Params = Params(replicas: Arg<int>, key: Arg<string>, value: Arg<string>, ids: Arg<seq<int>>)

  /** A mutating tool with its validated input. */
  datatype ToolCall =
    | RestartCall(service: string)
    | ScaleCall(service: string, replicas: int)
    | DeleteCall(kind: string, ids: Option<seq<int>>)
    | ClearCall(service: string)
    | ConfigCall(service: string, key: string, value: string)
    | RollbackCall(service: string)

  datatype Result =
    | Restarted(restarts: int, status: Health)
    | Scaled(previous: int, replicas: int)
    | Deleted(kind: string, ids: seq<int>)
    | Cleaned(usedPct: real)
    | Configured(key: string, previousValue: Option<string>, value: string)
    | RolledBackTo(from: string, version: string)

  datatype Compensation =
    | Noop
    | ScaleBack(service: string, replicas: int)
    | ConfigBack(service: string, key: string, value: Option<string>)
    | DeployBack(service: string, version: string)
    | Reinsert(rows: seq<Row>)

  datatype Entry = Entry(call: ToolCall, result: Result, compensation: Compensation)
  type Ledger = map<string, Entry>

  datatype Performed = Performed(world: World, result: Result, compensation: Compensation)
  datatype Outcome = Outcome(world: World, ledger: Ledger, entry: Entry, performed: bool)

  /** The dispatch of `execute_action`; `None` where it or the input schema raises. */
  function ParseCall(action: string, params: Params): Option<ToolCall> {
    match Parse(action)
    case None => None
    case Some(Parsed(None, _)) => None
    case Some(Parsed(Some(tool), target)) =>
      match tool
      case RestartService => Some(RestartCall(target))
      case ScaleService =>
        (match params.replicas
         case Missing => Some(ScaleCall(target, DEFAULT_SCALE_REPLICAS))
         case Malformed => None
         case Given(n) => Some(ScaleCall(target, n)))
      case ClearCache => Some(ClearCall(target))
      case ApplyConfigChange =>
        if params.key.Given? && params.value.Given?
        then Some(ConfigCall(target, params.key.value, params.value.value))
        else None
      case RollbackDeployment => Some(RollbackCall(target))
      case DeleteRecords =>
        match params.ids
        case Missing => Some(DeleteCall(target, None))
        case Malformed => None
        case Given(ids) => Some(DeleteCall(target, Some(ids)))
  }

  /** The service request behind a tool call (deletes go to the table instead). */
  function RequestOf(call: ToolCall): Op
    requires !call.DeleteCall?
  {
    match call
    case RestartCall(_) => Restart
    case ScaleCall(_, n) => Scale(n)
    case ClearCall(_) => CleanDisk
    case ConfigCall(_, k, v) => SetConfig(k, v)
    case RollbackCall(_) => Rollback
  }

  function ServiceResult(call: ToolCall, before: Service, after: Service): Result
    requires !call.DeleteCall?
  {
    match call
    case RestartCall(_) => Restarted(after.restarts, after.Status())
    case ScaleCall(_, n) => Scaled(before.replicas, n)
    case ClearCall(_) => Cleaned(after.disk)
    case ConfigCall(_, k, v) => Configured(k, Lookup(before.config, k), v)
    case RollbackCall(_) => RolledBackTo(before.Version(), after.Version())
  }

  function ServiceCompensation(call: ToolCall, before: Service): Compensation
    requires !call.DeleteCall?
  {
    match call
    case RestartCall(_) => Noop
    case ScaleCall(s, _) => ScaleBack(s, before.replicas)
    case ClearCall(_) => Noop
    case ConfigCall(s, k, _) => ConfigBack(s, k, Lookup(before.config, k))
    case RollbackCall(s) => DeployBack(s, before.Version())
  }

  function Lookup(config: map<string, string>, key: string): Option<string> {
    if key in config then Some(config[key]) else None
  }

  function RowsToDelete(t: Table, kind: string, ids: Option<seq<int>>): seq<Row> {
    match ids
    case Some(wanted) => ByIds(t, wanted)
    case None => ByKind(t, Some(kind), NO_LIMIT)
  }

  /** The `perform()` of a tool: `None` (and no effect) on an unknown service or an error status. */
  function Perform(w: World, call: ToolCall): Option<Performed> {
    if call.DeleteCall? then
      var rows := RowsToDelete(w.table, call.kind, call.ids);
      Some(Performed(w.(table := Delete(w.table, IdsIn(rows))), Deleted(call.kind, IdsIn(rows)), Reinsert(rows)))
    else if call.service !in w.services then None
    else
      var before := w.services[call.service];
      match Request(before, RequestOf(call))
      case None => None
      case Some(after) =>
        Some(Performed(w.(services := w.services[call.service := after]),
                       ServiceResult(call, before, after), ServiceCompensation(call, before)))
  }

  /** `_run_idempotent`: a known key returns its recorded entry without performing. */
  function RunIdempotent(w: World, ledger: Ledger, key: string, call: ToolCall): Option<Outcome> {
    if key in ledger then Some(Outcome(w, ledger, ledger[key], false))
    else match Perform(w, call)
      case None => None
      case Some(p) =>
        var entry := Entry(call, p.result, p.compensation);
        Some(Outcome(p.world, ledger[key := entry], entry, true))
  }

  function ExecuteAction(w: World, ledger: Ledger, action: string, params: Params, key: string): Option<Outcome> {
    match ParseCall(action, params)
    case None => None
    case Some(call) => RunIdempotent(w, ledger, key, call)
  }

  /** `verify_action`: no deleted id is still listed; any other target is healthy. */
  function VerifyAction(w: World, action: string, result: Result): Option<bool> {
    match Parse(action)
    case None => None
    case Some(Parsed(tool, target)) =>
      if tool == Some(DeleteRecords) then
        var deleted := if result.Deleted? then result.ids else [];
        var remaining := IdsIn(ByKind(w.table, Some(target), NO_LIMIT));
        Some(forall i | i in deleted :: i !in remaining)
      else if target !in w.services then None
      else Some(w.services[target].Status() == Healthy)
  }

  /** `apply_compensation`; a config entry that was absent cannot be put back (the endpoint
      refuses a null value), so that compensation raises. */
  function Compensate(w: World, c: Compensation): Option<World> {
    match c
    case Noop => Some(w)
    case Reinsert(rows) => Some(w.(table := InsertMany(w.table, Reinserted(rows))))
    case ScaleBack(s, n) =>
      if s in w.services then Some(w.(services := w.services[s := w.services[s].Scaled(n)])) else None
    case ConfigBack(s, k, v) =>
      if s in w.services && v.Some?
      then Some(w.(services := w.services[s := w.services[s].Configured(k, v.value)])) else None
    case DeployBack(s, v) =>
      if s in w.services then Some(w.(services := w.services[s := w.services[s].Deployed(v)])) else None
  }

  // ---- The durable part of the world, which compensations are about. ----

  datatype ServiceCore = ServiceCore(replicas: int, config: map<string, string>, versions: History)
  datatype Core = Core(services: map<string, ServiceCore>, rows: map<int, Record>)

  function ServiceCoreOf(s: Service): ServiceCore { ServiceCore(s.replicas, s.config, s.versions) }

  function CoreOf(w: World): Core {
    Core(map n | n in w.services :: ServiceCoreOf(w.services[n]), w.table.rows)
  }

  ghost predicate GoodHistories(core: Core) {
    forall n | n in core.services :: NoAdjacentRepeat(core.services[n].versions)
  }

  /** Every old value a compensation carries is the value in `core`. */
  ghost predicate Anchored(c: Compensation, core: Core) {
    match c
    case Noop => true
    case Reinsert(rows) => Snapshot(core.rows, rows)
    case ScaleBack(s, n) => s in core.services ==> core.services[s].replicas == n
    case ConfigBack(s, k, v) => s in core.services ==> v == Lookup(core.services[s].config, k)
    case DeployBack(s, v) => s in core.services ==> core.services[s].versions[|core.services[s].versions| - 1] == v
  }

  /** Running `c` in `w`, if it does not raise, leads to `core`. */
  ghost predicate Restores(w: World, c: Compensation, core: Core) {
    Compensate(w, c).Some? ==> CoreOf(Compensate(w, c).value) == core
  }

  /** A compensation run where there is nothing to undo changes nothing. */
  lemma AnchoredRestores(w: World, c: Compensation)
    requires Anchored(c, CoreOf(w))
    ensures Restores(w, c, CoreOf(w))
  {
    if Compensate(w, c).Some? {
      match c
      case Reinsert(rows) =>
        ReinsertRestores(w.table, rows, w.table.rows);
      case Noop =>
      case ScaleBack(s, n) => CoreUpdate(w, s, w.services[s].Scaled(n));
      case ConfigBack(s, k, v) =>
        CoreUpdate(w, s, w.services[s].Configured(k, v.value));
        assert w.services[s].config[k := v.value] == w.services[s].config;
      case DeployBack(s, v) => CoreUpdate(w, s, w.services[s].Deployed(v));
    }
  }

  /** Replacing one service by another with the same durable part keeps the core. */
  lemma CoreUpdate(w: World, s: string, t: Service)
    requires s in w.services
    ensures CoreOf(w.(services := w.services[s := t])) ==
            CoreOf(w).(services := CoreOf(w).services[s := ServiceCoreOf(t)])
  {
  }

  /** What `perform()` registers is anchored in the world it ran in, and undoes it. */
  lemma PerformUndone(w: World, call: ToolCall)
    requires Perform(w, call).Some?
    requires GoodHistories(CoreOf(w))
    ensures var p := Perform(w, call).value;
      && Anchored(p.compensation, CoreOf(w))
      && Restores(p.world, p.compensation, CoreOf(w))
  {
    var p := Perform(w, call).value;
    if call.DeleteCall? {
      DeleteUndone(w.table, call.kind, call.ids);
    } else {
      ServiceUndone(w, call);
    }
  }

  lemma DeleteUndone(t: Table, kind: string, ids: Option<seq<int>>)
    ensures var rows := RowsToDelete(t, kind, ids);
      && Snapshot(t.rows, rows)
      && InsertMany(Delete(t, IdsIn(rows)), Reinserted(rows)).rows == t.rows
      && (FreshNextId(t) ==> InsertMany(Delete(t, IdsIn(rows)), Reinserted(rows)) == t)
  {
    var rows := RowsToDelete(t, kind, ids);
    if ids.Some? {
      ByIdsSnapshot(t, ids.value);
    } else {
      ByKindSnapshot(t, Some(kind), NO_LIMIT);
    }
    ReinsertRestores(Delete(t, IdsIn(rows)), rows, t.rows);
  }

  lemma ServiceUndone(w: World, call: ToolCall)
    requires !call.DeleteCall? && Perform(w, call).Some?
    requires GoodHistories(CoreOf(w))
    ensures var p := Perform(w, call).value;
      && Anchored(p.compensation, CoreOf(w))
      && Restores(p.world, p.compensation, CoreOf(w))
  {
    var p, s := Perform(w, call).value, call.service;
    var before, after := w.services[s], p.world.services[s];
    CoreUpdate(w, s, after);
    assert CoreOf(w).services[s] == ServiceCoreOf(before);
    if Compensate(p.world, p.compensation).Some? {
      match call
      case RestartCall(_) =>
      case ClearCall(_) =>
      case ScaleCall(_, _) => CoreUpdate(p.world, s, after.Scaled(before.replicas));
      case ConfigCall(_, k, _) =>
        var v := before.config[k];
        CoreUpdate(p.world, s, after.Configured(k, v));
        assert after.config[k := v] == before.config;
      case RollbackCall(_) =>
        CoreUpdate(p.world, s, after.Deployed(before.Version()));
        RollbackUndo(before);
    }
  }

  /** Tool calls and compensations keep histories free of adjacent repeats. */
  lemma PerformKeepsHistories(w: World, call: ToolCall)
    requires Perform(w, call).Some?
    requires GoodHistories(CoreOf(w))
    ensures GoodHistories(CoreOf(Perform(w, call).value.world))
  {
    if !call.DeleteCall? {
      var s := call.service;
      assert NoAdjacentRepeat(CoreOf(w).services[s].versions);
      HistoryKept(w.services[s], RequestOf(call));
      CoreUpdate(w, s, Perform(w, call).value.world.services[s]);
    }
  }

  /** Undo and undo twice: executing a tool and compensating restores the durable world, and
      compensating again changes nothing at all. The compensation fails to apply only when a
      config key that did not exist was set. */
  lemma UndoTwice(w: World, call: ToolCall)
    requires Perform(w, call).Some?
    requires GoodHistories(CoreOf(w))
    ensures var p := Perform(w, call).value;
      && (Compensate(p.world, p.compensation).None?
          <==> call.ConfigCall? && call.key !in w.services[call.service].config)
      && (Compensate(p.world, p.compensation).Some? ==>
            var once := Compensate(p.world, p.compensation).value;
            && CoreOf(once) == CoreOf(w)
            && (FreshNextId(w.table) ==> once.table == w.table)
            && Compensate(once, p.compensation) == Some(once))
  {
    var p := Perform(w, call).value;
    PerformUndone(w, call);
    if Compensate(p.world, p.compensation).Some? {
      var once := Compensate(p.world, p.compensation).value;
      if call.DeleteCall? {
        DeleteUndone(w.table, call.kind, call.ids);
        ReinsertAgain(p.world.table, p.compensation.rows);
      } else {
        var s := call.service;
        assert once.services[s := once.services[s]] == once.services;
        if call.ConfigCall? {
          assert once.services[s].Configured(call.key, p.compensation.value.value) == once.services[s] by {
            assert once.services[s].config[call.key := p.compensation.value.value] == once.services[s].config;
          }
        }
      }
    }
  }

  /** Inserting rows that carry their own ids a second time changes nothing. */
  lemma {:induction false} InsertAbsorbs(t: Table, rows: seq<Row>)
    requires Snapshot(t.rows, rows)
    requires forall k :: 0 <= k < |rows| ==> rows[k].id < t.nextId
    ensures InsertMany(t, Reinserted(rows)) == t
  {
    if rows != [] {
      var n := |rows| - 1;
      InsertAbsorbs(t, rows[..n]);
      assert Reinserted(rows)[..n] == Reinserted(rows[..n]);
      assert t.rows[rows[n].id := Record(rows[n].kind, rows[n].payload)] == t.rows;
    }
  }

  lemma ReinsertAgain(t: Table, rows: seq<Row>)
    requires exists all: map<int, Record> ::
      Snapshot(all, rows) && forall i | i in t.rows :: i in all && t.rows[i] == all[i]
    ensures var once := InsertMany(t, Reinserted(rows)); InsertMany(once, Reinserted(rows)) == once
  {
    var all: map<int, Record> :| Snapshot(all, rows) && forall i | i in t.rows :: i in all && t.rows[i] == all[i];
    ReinsertPart(t, rows, all);
    InsertRaisesNextId(t, rows);
    InsertAbsorbs(InsertMany(t, Reinserted(rows)), rows);
  }

  lemma {:induction false} InsertRaisesNextId(t: Table, rows: seq<Row>)
    ensures InsertMany(t, Reinserted(rows)).nextId >= t.nextId
    ensures forall k :: 0 <= k < |rows| ==> rows[k].id < InsertMany(t, Reinserted(rows)).nextId
  {
    if rows != [] {
      var n := |rows| - 1;
      InsertRaisesNextId(t, rows[..n]);
      assert Reinserted(rows)[..n] == Reinserted(rows[..n]);
    }
  }
}
