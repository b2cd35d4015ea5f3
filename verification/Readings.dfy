/** What the sweep shows of the sandbox, what a validated proposal may name, which fields decide drift, and which tier
    the policy gives (src/agent/observations.py, src/revalidation/fingerprint.py, src/risk/policy.py). */
module Readings {
  import opened Options
  import opened MockService
  import opened Records
  import opened Actions
  import opened Tools
  import opened Observations

  /** The sweep needs the three services, and the disk of the third. */
  lemma SweepPossible(w: World)
    ensures Gather(w).Some? <==>
      && "service_a" in w.services && "service_b" in w.services && "service_c" in w.services
      && w.services["service_c"].hasDisk
  {
    KnownServices();
    if Gather(w).Some? {
      assert Reachable(w, KNOWN_SERVICES[0]) && Reachable(w, KNOWN_SERVICES[1]) && Reachable(w, KNOWN_SERVICES[2]);
    }
  }

  /** It shows every metric of every service, the disk of the third alone, and the first thousand rows by id. */
  lemma SweepShows(w: World)
    requires Gather(w).Some?
    ensures var o := Gather(w).value;
      && (forall x :: x in o.services <==> x in {"service_a", "service_b", "service_c"})
      && (forall x | x in o.services :: x in w.services && Shows(x, o.services[x], w.services[x]))
      && FirstOf(o.records, w.table.rows, w.table.rows.Keys, 1000)
  {
    KnownServices();
    ServicesShown(w, KNOWN_SERVICES);
    ByKindMeans(w.table, None, 1000);
    assert Gather(w).value.records == ByKind(w.table, None, 1000);
  }

  lemma ServicesShown(w: World, names: seq<string>)
    requires GatherFrom(w, names).Some?
    ensures forall x :: x in GatherFrom(w, names).value.services <==> x in names
    ensures forall x | x in names :: x in w.services
    ensures forall x | x in names :: Shows(x, GatherFrom(w, names).value.services[x], w.services[x])
  {
    forall x | x in names
      ensures x in w.services && Shows(x, GatherFrom(w, names).value.services[x], w.services[x])
    {
      assert Reachable(w, x);
      assert GatherFrom(w, names).value.services[x] == View(x, w.services[x]);
    }
  }

  lemma KnownServices()
    ensures forall x :: x in KNOWN_SERVICES <==> x in {"service_a", "service_b", "service_c"}
  {
    assert KNOWN_SERVICES[0] == "service_a" && KNOWN_SERVICES[1] == "service_b" && KNOWN_SERVICES[2] == "service_c";
  }

  ghost predicate Shows(x: string, v: ServiceView, s: Service) {
    && v.status == s.Status() && v.restarts == s.restarts && v.replicas == s.replicas
    && v.memory == s.memory && v.cpu == s.cpu && v.errorRate == s.errorRate
    && v.version == s.versions[|s.versions| - 1]
    && v.disk == if x == "service_c" then Some(s.disk) else None
  }

  // ---- Which proposals are grounded. ----

  /** A proposal is accepted exactly if its tool is known and applies to its target; otherwise the first thing wrong
      with it is the reason. */
  lemma ValidExactly(w: World, parsed: Parsed)
    requires Gather(w).Some?
    ensures var reason := Validate(Gather(w).value, parsed);
      var known := parsed.target in {"service_a", "service_b", "service_c"};
      && (reason == Some(UnknownTool) <==> parsed.tool == None)
      && (reason == Some(UnknownKind) <==>
            parsed.tool == Some(Tool.DeleteRecords) && parsed.target !in {"order", "session", "cache_entry"})
      && (reason == Some(UnknownService) <==>
            parsed.tool.Some? && parsed.tool != Some(Tool.DeleteRecords) && !known)
      && (reason == Some(NoDiskSurface) <==>
            parsed.tool == Some(ClearCache) && known && parsed.target != "service_c")
      && (reason == None <==>
            || (parsed.tool == Some(Tool.DeleteRecords) && parsed.target in {"order", "session", "cache_entry"})
            || (parsed.tool == Some(ClearCache) && parsed.target == "service_c")
            || (parsed.tool.Some? && parsed.tool.value !in {Tool.DeleteRecords, ClearCache} && known))
  {
    SweepShows(w);
  }

  // ---- Which fields decide drift. ----

  /** The target looks the same to `tool`: load and health for a restart or a scaling, the disk for a cache clear,
      health and version for a rollback, health alone for a setting; for a delete, the same rows of the kind are
      among the first thousand of all rows. */
  ghost predicate LooksAlike(w: World, v: World, tool: Tool, x: string)
    requires tool == Tool.DeleteRecords || (x in w.services && x in v.services)
  {
    match tool
    case RestartService => SameLoadIn(w.services[x], v.services[x])
    case ScaleService => SameLoadIn(w.services[x], v.services[x])
    case ClearCache => w.services[x].disk == v.services[x].disk
    case RollbackDeployment =>
      && w.services[x].Status() == v.services[x].Status()
      && w.services[x].versions[|w.services[x].versions| - 1] == v.services[x].versions[|v.services[x].versions| - 1]
    case ApplyConfigChange => w.services[x].Status() == v.services[x].Status()
    case DeleteRecords => forall i :: AmongFirst(w.table, x, i) <==> AmongFirst(v.table, x, i)
  }

  ghost predicate SameLoadIn(s: Service, t: Service) {
    s.Status() == t.Status() && s.memory == t.memory && s.cpu == t.cpu && s.errorRate == t.errorRate
  }

  ghost predicate AmongFirst(t: Table, kind: string, i: int) {
    i in t.rows && t.rows[i].kind == kind && |set j | j in t.rows && j < i| < 1000
  }

  /** The drift check on two worlds, for every tool and target it accepts: the fingerprints agree exactly if the target
      looks the same to the tool. */
  lemma DriftExactly(w: World, v: World, tool: Tool, x: string)
    requires Gather(w).Some? && Gather(v).Some?
    requires Validate(Gather(w).value, Parsed(Some(tool), x)).None?
    ensures tool != Tool.DeleteRecords ==> x in w.services && x in v.services
    ensures var a := Join(ToolName(tool), x);
      && Fingerprint(Gather(w).value, a).Some? && Fingerprint(Gather(v).value, a).Some?
      && (Fingerprint(Gather(w).value, a) == Fingerprint(Gather(v).value, a) <==> LooksAlike(w, v, tool, x))
  {
    ToolNameParses(tool, x);
    if tool == Tool.DeleteRecords {
      DeleteDrift(w, v, x);
    } else {
      ServiceDrift(w, v, tool, x);
    }
  }

  lemma DeleteDrift(w: World, v: World, kind: string)
    requires Gather(w).Some? && Gather(v).Some?
    ensures var delete := Some(Tool.DeleteRecords);
      var a, b := RelevantFields(Gather(w).value, delete, kind), RelevantFields(Gather(v).value, delete, kind);
      a.Some? && b.Some? && (a == b <==> LooksAlike(w, v, Tool.DeleteRecords, kind))
  {
    DeleteFields(w, kind);
    DeleteFields(v, kind);
    ShownDecides(w, v, kind);
  }

  lemma ShownDecides(w: World, v: World, kind: string)
    ensures VisibleIds(w.table, kind) == VisibleIds(v.table, kind) <==> LooksAlike(w, v, Tool.DeleteRecords, kind)
  {
    DeleteDriftExactly(w, v, kind);
    FirstIsShown(w.table, kind);
    FirstIsShown(v.table, kind);
    assert LooksAlike(w, v, Tool.DeleteRecords, kind) <==>
      forall i :: Shown(w.table, kind, i) <==> Shown(v.table, kind, i);
  }

  lemma DeleteFields(w: World, kind: string)
    requires Gather(w).Some?
    ensures RelevantFields(Gather(w).value, Some(Tool.DeleteRecords), kind) ==
      Some(RecordFields(kind, VisibleIds(w.table, kind)))
  {
  }

  lemma FirstIsShown(t: Table, kind: string)
    ensures forall i :: AmongFirst(t, kind, i) <==> Shown(t, kind, i)
  {
  }

  lemma ServiceDrift(w: World, v: World, tool: Tool, x: string)
    requires Gather(w).Some? && Gather(v).Some? && tool != Tool.DeleteRecords
    requires Validate(Gather(w).value, Parsed(Some(tool), x)).None?
    ensures x in w.services && x in v.services
    ensures var a, b := RelevantFields(Gather(w).value, Some(tool), x), RelevantFields(Gather(v).value, Some(tool), x);
      a.Some? && b.Some? && (a == b <==> LooksAlike(w, v, tool, x))
  {
    ServicesShown(w, KNOWN_SERVICES);
    ServicesShown(v, KNOWN_SERVICES);
    KnownServices();
    var s, t := Gather(w).value.services[x], Gather(v).value.services[x];
    assert Shows(x, s, w.services[x]) && Shows(x, t, v.services[x]);
    FieldsOf(Gather(w).value, tool, x, s);
    FieldsOf(Gather(v).value, tool, x, t);
  }

  /** The fields behind a fingerprint. */
  lemma FieldsOf(o: Sweep, tool: Tool, x: string, v: ServiceView)
    requires x in o.services && o.services[x] == v && tool != Tool.DeleteRecords
    ensures var fields := RelevantFields(o, Some(tool), x);
      match tool
      case RestartService => fields == Some(LoadFields(v.status, v.memory, v.cpu, v.errorRate))
      case ScaleService => fields == Some(LoadFields(v.status, v.memory, v.cpu, v.errorRate))
      case ClearCache => fields == if v.disk.Some? then Some(DiskFields(v.disk.value)) else None
      case RollbackDeployment => fields == Some(VersionFields(v.status, v.version))
      case ApplyConfigChange => fields == Some(StatusField(v.status))
      case DeleteRecords => true
  {
  }

  // ---- The same on two sweeps. ----

  /** Two sweeps agree on what `tool` on `x` depends on: the listed fields of the service's view, or the ids of the
      rows of the kind. */
  ghost predicate SweepsAgree(a: Sweep, b: Sweep, tool: Tool, x: string)
    requires tool == Tool.DeleteRecords || (x in a.services && x in b.services)
  {
    match tool
    case RestartService => SameLoadViews(a.services[x], b.services[x])
    case ScaleService => SameLoadViews(a.services[x], b.services[x])
    case ClearCache => a.services[x].disk == b.services[x].disk
    case RollbackDeployment =>
      a.services[x].status == b.services[x].status && a.services[x].version == b.services[x].version
    case ApplyConfigChange => a.services[x].status == b.services[x].status
    case DeleteRecords => multiset(KindIds(a.records, x)) == multiset(KindIds(b.records, x))
  }

  ghost predicate SameLoadViews(v: ServiceView, u: ServiceView) {
    v.status == u.status && v.memory == u.memory && v.cpu == u.cpu && v.errorRate == u.errorRate
  }

  ghost predicate NonDecreasing(s: seq<int>) { forall i, j :: 0 <= i < j < |s| ==> s[i] <= s[j] }

  lemma {:induction false} PlaceKeeps(x: int, s: seq<int>)
    ensures multiset(Observations.Place(x, s)) == multiset{x} + multiset(s)
  {
    if s != [] && x > s[0] {
      PlaceKeeps(x, s[1..]);
      assert s == [s[0]] + s[1..];
    }
  }

  lemma {:induction false} PlaceOrders(x: int, s: seq<int>)
    requires NonDecreasing(s)
    ensures NonDecreasing(Observations.Place(x, s))
  {
    if s != [] && x > s[0] {
      var placed := Observations.Place(x, s[1..]);
      PlaceOrders(x, s[1..]);
      PlaceKeeps(x, s[1..]);
      forall i | 0 <= i < |placed|
        ensures s[0] <= placed[i]
      {
        assert placed[i] in multiset(placed);
        assert placed[i] == x || placed[i] in s[1..];
      }
    }
  }

  lemma {:induction false} SortedOrders(xs: seq<int>)
    ensures NonDecreasing(Sorted(xs)) && multiset(Sorted(xs)) == multiset(xs)
  {
    if xs != [] {
      SortedOrders(xs[1..]);
      PlaceOrders(xs[0], Sorted(xs[1..]));
      PlaceKeeps(xs[0], Sorted(xs[1..]));
      assert xs == [xs[0]] + xs[1..];
    }
  }

  lemma HeadAndTail(s: seq<int>)
    requires NonDecreasing(s) && s != []
    ensures s[0] in multiset(s) && forall x | x in multiset(s) :: s[0] <= x
    ensures NonDecreasing(s[1..]) && multiset(s[1..]) == multiset(s) - multiset{s[0]}
  {
    assert s == [s[0]] + s[1..];
    assert forall x | x in multiset(s) :: x in s;
  }

  lemma {:induction false} OrderIsUnique(a: seq<int>, b: seq<int>)
    requires NonDecreasing(a) && NonDecreasing(b) && multiset(a) == multiset(b)
    ensures a == b
  {
    assert |a| == |multiset(a)| == |multiset(b)| == |b|;
    if a != [] {
      HeadAndTail(a);
      HeadAndTail(b);
      assert a[0] == b[0];
      OrderIsUnique(a[1..], b[1..]);
      assert a == [a[0]] + a[1..] && b == [b[0]] + b[1..];
    }
  }

  lemma SameIdsSameList(xs: seq<int>, ys: seq<int>)
    ensures Sorted(xs) == Sorted(ys) <==> multiset(xs) == multiset(ys)
  {
    SortedOrders(xs);
    SortedOrders(ys);
    if multiset(xs) == multiset(ys) {
      OrderIsUnique(Sorted(xs), Sorted(ys));
    }
  }

  /** Fingerprints of one action agree exactly if the sweeps agree on what it depends on. */
  lemma PrintsDecide(a: Sweep, b: Sweep, action: string)
    requires Fingerprint(a, action).Some? && Fingerprint(b, action).Some?
    ensures Parse(action).Some? && Parse(action).value.tool.Some?
    ensures var tool, x := Parse(action).value.tool.value, Parse(action).value.target;
      && (tool == Tool.DeleteRecords || (x in a.services && x in b.services))
      && (Fingerprint(a, action) == Fingerprint(b, action) <==> SweepsAgree(a, b, tool, x))
  {
    var tool, x := Parse(action).value.tool.value, Parse(action).value.target;
    if tool == Tool.DeleteRecords {
      SameIdsSameList(KindIds(a.records, x), KindIds(b.records, x));
    } else {
      FieldsOf(a, tool, x, a.services[x]);
      FieldsOf(b, tool, x, b.services[x]);
    }
  }

  // ---- What others may change. ----

  /** A change by others is a request to one service, one row more, or one row less. */
  lemma ChangedMeans(w: World, c: Change)
    ensures var v := Changed(w, c);
      match c
      case ServiceChange(x, op) =>
        && v.table == w.table && v.services.Keys == w.services.Keys
        && (forall n | n in w.services && n != x :: v.services[n] == w.services[n])
        && (x in w.services ==> Some(v.services[x]) == (match Request(w.services[x], op)
                                                         case None => Some(w.services[x])
                                                         case Some(t) => Some(t)))
      case InsertRow(row) =>
        var id := if row.id.Some? then row.id.value else w.table.nextId;
        && v.services == w.services && id in v.table.rows && v.table.rows[id] == Record(row.kind, row.payload)
        && OnlyRow(w.table, v.table, id)
      case DeleteRow(id) =>
        v.services == w.services && id !in v.table.rows && OnlyRow(w.table, v.table, id)
  {
  }

  ghost predicate OnlyRow(t: Table, u: Table, id: int) {
    forall i | i != id :: (i in u.rows <==> i in t.rows) && (i in t.rows ==> u.rows[i] == t.rows[i])
  }
}
