/** The objects behind the tools: the idempotency store, the service clients and the record
    table (src/tools/context.py), and the tools that mutate them (src/tools/mutating.py,
    src/agent/execution.py), each proved against its function in module Tools. */
module ToolContexts {
  import opened Options
  import opened MockService
  import opened Records
  import opened Actions
  import opened Tools

  class ExecutedActionsStore {
    var rows: Ledger

    constructor ()
      ensures rows == map[]
    {
      rows := map[];
    }

    method Get(key: string) returns (entry: Option<Entry>)
      ensures entry == if key in rows then Some(rows[key]) else None
    {
      entry := if key in rows then Some(rows[key]) else None;
    }

    /** First write wins. */
    method Record(key: string, entry: Entry)
      modifies this
      ensures rows == if key in old(rows) then old(rows) else old(rows)[key := entry]
    {
      if key !in rows {
        rows := rows[key := entry];
      }
    }
  }

  class ToolContext {
    const clients: map<string, ServiceState>
    const store: ExecutedActionsStore
    const records: RecordsRepository

    /** Distinct service names reach distinct services. */
    ghost predicate Valid() {
      forall a, b :: a in clients && b in clients && a != b ==> clients[a] != clients[b]
    }

    ghost function Services(): set<object> {
      set n | n in clients :: clients[n]
    }

    ghost function TheWorld(): World
      reads records, Services()
    {
      World(map n | n in clients :: clients[n].Value(), records.Value())
    }

    constructor (clients: map<string, ServiceState>, store: ExecutedActionsStore, records: RecordsRepository)
      requires forall a, b :: a in clients && b in clients && a != b ==> clients[a] != clients[b]
      ensures Valid() && this.clients == clients && this.store == store && this.records == records
    {
      this.clients, this.store, this.records := clients, store, records;
    }

    method DeleteRecords(kind: string, ids: Option<seq<int>>) returns (result: Result, compensation: Compensation)
      requires Valid()
      modifies records
      ensures Perform(old(TheWorld()), DeleteCall(kind, ids)) == Some(Performed(TheWorld(), result, compensation))
    {
      var rows: seq<Row>;
      match ids {
        case Some(wanted) => rows := records.GetByIds(wanted);
        case None => rows := records.GetByKind(Some(kind), NO_LIMIT);
      }
      var toDelete := IdsIn(rows);
      records.DeleteAll(toDelete);
      assert TheWorld().services == old(TheWorld()).services;
      result := Deleted(kind, toDelete);
      compensation := Reinsert(rows);
    }

    /** The other five tools: one POST to the target's service. */
    method PostToService(call: ToolCall) returns (done: Option<(Result, Compensation)>)
      requires Valid() && !call.DeleteCall?
      modifies Services()
      ensures done.None? ==> Perform(old(TheWorld()), call) == None && TheWorld() == old(TheWorld())
      ensures done.Some? ==>
        Perform(old(TheWorld()), call) == Some(Performed(TheWorld(), done.value.0, done.value.1))
    {
      if call.service !in clients {
        return None;
      }
      var service := clients[call.service];
      assert service in Services();
      ghost var before := service.Value();
      match call {
        case RestartCall(_) =>
          service.Restart();
          done := Some((Restarted(service.restartCount, service.Status()), Noop));
        case ScaleCall(s, n) =>
          var previous := service.Scale(n);
          done := Some((Scaled(previous, service.replicas), ScaleBack(s, previous)));
        case ClearCall(_) =>
          var ok := service.CleanDisk();
          done := if ok then Some((Cleaned(service.diskPct), Noop)) else None;
        case ConfigCall(s, k, v) =>
          var previous := service.SetConfig(k, v);
          done := Some((Configured(k, previous, v), ConfigBack(s, k, previous)));
        case RollbackCall(s) =>
          var popped := service.Rollback();
          done := if popped.Some?
            then Some((RolledBackTo(popped.value, service.versionHistory[|service.versionHistory| - 1]),
                       DeployBack(s, popped.value)))
            else None;
      }
      OnlyTargetChanged(call.service);
      assert before == old(TheWorld()).services[call.service];
      assert service.Value() == After(before, RequestOf(call));
      RequestIsPerform(old(TheWorld()), call, TheWorld());
    }

    /** A request to the target's service is the `perform()` of the tool. */
    static lemma RequestIsPerform(w: World, call: ToolCall, v: World)
      requires !call.DeleteCall? && call.service in w.services
      requires v == w.(services := w.services[call.service := After(w.services[call.service], RequestOf(call))])
      ensures var before, after := w.services[call.service], After(w.services[call.service], RequestOf(call));
        if Request(before, RequestOf(call)).None? then Perform(w, call).None? && v == w
        else Perform(w, call) ==
               Some(Performed(v, ServiceResult(call, before, after), ServiceCompensation(call, before)))
    {
      assert w.services[call.service := w.services[call.service]] == w.services;
    }

    /** The world depends on the services and the table only. */
    twostate lemma SameWorld()
      requires unchanged(records) && forall o | o in Services() :: unchanged(o)
      ensures TheWorld() == old(TheWorld())
    {
    }

    /** A change to one client leaves every other service of the world alone. */
    twostate lemma OnlyTargetChanged(target: string)
      requires Valid() && target in clients
      requires unchanged(records)
      requires forall o | o in Services() && o != clients[target] :: unchanged(o)
      ensures TheWorld() == old(TheWorld()).(services := old(TheWorld()).services[target := clients[target].Value()])
    {
      forall n | n in clients && n != target
        ensures clients[n].Value() == old(clients[n].Value())
      {
        assert clients[n] in Services();
      }
    }

    method PerformCall(call: ToolCall) returns (done: Option<(Result, Compensation)>)
      requires Valid()
      modifies records, Services()
      ensures done.None? ==> Perform(old(TheWorld()), call) == None && TheWorld() == old(TheWorld())
      ensures done.Some? ==>
        Perform(old(TheWorld()), call) == Some(Performed(TheWorld(), done.value.0, done.value.1))
    {
      if call.DeleteCall? {
        var result, compensation := DeleteRecords(call.kind, call.ids);
        done := Some((result, compensation));
      } else {
        done := PostToService(call);
      }
    }

    /** `_run_idempotent`. `None` is the exception the tool would raise. */
    method RunOnce(key: string, call: ToolCall) returns (outcome: Option<(Entry, bool)>)
      requires Valid()
      modifies store, records, Services()
      ensures outcome.None? ==>
        && RunIdempotent(old(TheWorld()), old(store.rows), key, call) == None
        && TheWorld() == old(TheWorld()) && store.rows == old(store.rows)
      ensures outcome.Some? ==>
        RunIdempotent(old(TheWorld()), old(store.rows), key, call)
          == Some(Outcome(TheWorld(), store.rows, outcome.value.0, outcome.value.1))
    {
      var existing := store.Get(key);
      if existing.Some? {
        return Some((existing.value, false));
      }
      var done := PerformCall(call);
      if done.None? {
        return None;
      }
      var entry := Entry(call, done.value.0, done.value.1);
      store.Record(key, entry);
      outcome := Some((entry, true));
    }

    method Execute(action: string, params: Params, key: string) returns (outcome: Option<(Entry, bool)>)
      requires Valid()
      modifies store, records, Services()
      ensures outcome.None? ==>
        && ExecuteAction(old(TheWorld()), old(store.rows), action, params, key) == None
        && TheWorld() == old(TheWorld()) && store.rows == old(store.rows)
      ensures outcome.Some? ==>
        ExecuteAction(old(TheWorld()), old(store.rows), action, params, key)
          == Some(Outcome(TheWorld(), store.rows, outcome.value.0, outcome.value.1))
    {
      var call := ParseCall(action, params);
      if call.None? {
        return None;
      }
      outcome := RunOnce(key, call.value);
    }

    method Verify(action: string, result: Result) returns (passed: Option<bool>)
      requires Valid()
      ensures passed == VerifyAction(TheWorld(), action, result)
    {
      var parsed := Parse(action);
      if parsed.None? {
        return None;
      }
      var target := parsed.value.target;
      if parsed.value.tool == Some(Tool.DeleteRecords) {
        var remaining := records.GetByKind(Some(target), NO_LIMIT);
        var deleted := if result.Deleted? then result.ids else [];
        return Some(forall i | i in deleted :: i !in IdsIn(remaining));
      }
      if target !in clients {
        return None;
      }
      passed := Some(clients[target].Status() == Healthy);
    }

    method Undo(c: Compensation) returns (ok: bool)
      requires Valid()
      modifies records, Services()
      ensures !ok ==> Compensate(old(TheWorld()), c) == None && TheWorld() == old(TheWorld())
      ensures ok ==> Compensate(old(TheWorld()), c) == Some(TheWorld())
    {
      match c {
        case Noop =>
        case Reinsert(rows) =>
          records.InsertAll(Reinserted(rows));
          assert TheWorld().services == old(TheWorld()).services;
        case ScaleBack(s, n) =>
          if s !in clients {
            return false;
          }
          assert clients[s] in Services();
          var _ := clients[s].Scale(n);
          OnlyTargetChanged(s);
        case ConfigBack(s, k, v) =>
          if s !in clients || v.None? {
            return false;
          }
          assert clients[s] in Services();
          var _ := clients[s].SetConfig(k, v.value);
          OnlyTargetChanged(s);
        case DeployBack(s, v) =>
          if s !in clients {
            return false;
          }
          assert clients[s] in Services();
          var _ := clients[s].Deploy(v);
          OnlyTargetChanged(s);
      }
      ok := true;
    }
  }
}
