/** The read-only sweep (src/agent/observations.py), the scoped fingerprint taken from it
    (src/revalidation/fingerprint.py) and the risk policy that reads it (src/risk/policy.py). */
module Observations {
  import opened Options
  import opened MockService
  import opened Records
  import opened Actions
  import opened Tools
  import opened ToolContexts

  const SWEEP_LIMIT: nat := 1000
  const MIN_REDUNDANT_REPLICAS: int := 2

  /** Health and metrics of one service, and its disk endpoint if the registry gives it one. */
  datatype ServiceView = ServiceView(
    status: Health, restarts: int, memory: real, cpu: real, errorRate: real, replicas: int, version: string,
    disk: Option<real>)
  datatype Sweep = Sweep(services: map<string, ServiceView>, records: seq<Row>)

  function View(name: string, s: Service): ServiceView {
    ServiceView(s.Status(), s.restarts, s.memory, s.cpu, s.errorRate, s.replicas, s.Version(),
                if HasDisk(name) then Some(s.disk) else None)
  }

  predicate Reachable(w: World, name: string) {
    name in w.services && (HasDisk(name) ==> w.services[name].hasDisk)
  }

  /** `gather_observations`; it raises when a known service or a disk endpoint is missing. */
  function Gather(w: World): Option<Sweep> { GatherFrom(w, KNOWN_SERVICES) }

  function GatherFrom(w: World, names: seq<string>): Option<Sweep> {
    if forall n | n in names :: Reachable(w, n) then
      Some(Sweep(Views(w, names), ByKind(w.table, None, SWEEP_LIMIT)))
    else None
  }

  function Views(w: World, names: seq<string>): (views: map<string, ServiceView>)
    requires forall n | n in names :: n in w.services
    ensures forall n :: n in views <==> n in names
    ensures forall n | n in views :: views[n] == View(n, w.services[n])
  {
    if names == [] then map[]
    else
      var last := names[|names| - 1];
      Views(w, names[..|names| - 1])[last := View(last, w.services[last])]
  }

  method GatherObservations(ctx: ToolContext) returns (sweep: Option<Sweep>)
    requires ctx.Valid()
    ensures sweep == Gather(ctx.TheWorld())
  {
    sweep := SweepServices(ctx, KNOWN_SERVICES);
  }

  method SweepServices(ctx: ToolContext, names: seq<string>) returns (sweep: Option<Sweep>)
    requires ctx.Valid()
    ensures sweep == GatherFrom(ctx.TheWorld(), names)
  {
    ghost var w := ctx.TheWorld();
    var services: map<string, ServiceView> := map[];
    for k := 0 to |names|
      invariant ctx.TheWorld() == w
      invariant forall n | n in names[..k] :: Reachable(w, n)
      invariant services == Views(w, names[..k])
    {
      var view := ReadService(ctx, names[k]);
      if view.None? {
        UnreachableFails(w, names, names[k]);
        return None;
      }
      services := services[names[k] := view.value];
      ViewsSnoc(w, names, k);
    }
    assert names[..|names|] == names;
    var rows := ctx.records.GetByKind(None, SWEEP_LIMIT);
    assert rows == ByKind(w.table, None, SWEEP_LIMIT) && ctx.TheWorld() == w;
    sweep := Some(Sweep(services, rows));
  }

  lemma UnreachableFails(w: World, names: seq<string>, name: string)
    requires name in names && !Reachable(w, name)
    ensures GatherFrom(w, names) == None
  {
  }

  /** The GETs on one service; `None` where one of them fails. */
  function ReadService(ctx: ToolContext, name: string): (view: Option<ServiceView>)
    requires ctx.Valid()
    reads ctx.records, ctx.Services()
    ensures view == if Reachable(ctx.TheWorld(), name) then Some(View(name, ctx.TheWorld().services[name])) else None
  {
    if name !in ctx.clients || (HasDisk(name) && !ctx.clients[name].hasDisk) then None
    else Some(ViewOf(ctx.clients[name], name))
  }

  lemma ViewsSnoc(w: World, names: seq<string>, k: nat)
    requires k < |names| && Reachable(w, names[k]) && forall n | n in names[..k] :: Reachable(w, n)
    ensures forall n | n in names[..k + 1] :: n in w.services && Reachable(w, n)
    ensures Views(w, names[..k + 1]) == Views(w, names[..k])[names[k] := View(names[k], w.services[names[k]])]
  {
    assert names[..k + 1][..k] == names[..k];
    forall n | n in names[..k + 1]
      ensures n in w.services && Reachable(w, n)
    {
      assert n in names[..k] || n == names[k];
    }
  }

  function ViewOf(service: ServiceState, name: string): (view: ServiceView)
    reads service
    ensures view == View(name, service.Value())
  {
    ServiceView(service.Status(), service.restartCount, service.memoryPct, service.cpuPct, service.errorRate,
      service.replicas, service.versionHistory[|service.versionHistory| - 1],
      if HasDisk(name) then Some(service.diskPct) else None)
  }

  // ---- Fingerprints: the relevant fields themselves stand for their hash. ----

  datatype Fields =
    | LoadFields(status: Health, memory: real, cpu: real, errorRate: real)
    | DiskFields(usedPct: real)
    | VersionFields(status: Health, version: string)
    | StatusField(status: Health)
    | RecordFields(kind: string, ids: seq<int>)

  function Sorted(xs: seq<int>): seq<int> {
    if xs == [] then [] else Place(xs[0], Sorted(xs[1..]))
  }

  function Place(x: int, sorted: seq<int>): seq<int> {
    if sorted == [] || x <= sorted[0] then [x] + sorted else [sorted[0]] + Place(x, sorted[1..])
  }

  function KindIds(rows: seq<Row>, kind: string): seq<int> {
    if rows == [] then []
    else if rows[0].kind == kind then [rows[0].id] + KindIds(rows[1..], kind)
    else KindIds(rows[1..], kind)
  }

  /** `relevant_fields`; `None` where a lookup or the tool dispatch raises. */
  function RelevantFields(o: Sweep, tool: Option<Tool>, target: string): Option<Fields> {
    if tool.None? then None
    else if tool.value == DeleteRecords then Some(RecordFields(target, Sorted(KindIds(o.records, target))))
    else if target !in o.services then None
    else
      var v := o.services[target];
      match tool.value
      case ClearCache => if v.disk.Some? then Some(DiskFields(v.disk.value)) else None
      case RollbackDeployment => Some(VersionFields(v.status, v.version))
      case ApplyConfigChange => Some(StatusField(v.status))
      case _ => Some(LoadFields(v.status, v.memory, v.cpu, v.errorRate))
  }

  function Fingerprint(o: Sweep, action: string): Option<Fields> {
    match Parse(action)
    case None => None
    case Some(Parsed(tool, target)) => RelevantFields(o, tool, target)
  }

  datatype InvalidReason = UnknownTool | UnknownKind | UnknownService | NoDiskSurface

  /** `validate_proposal` on a string that does hold a colon. */
  function Validate(o: Sweep, parsed: Parsed): Option<InvalidReason> {
    if parsed.tool.None? then Some(UnknownTool)
    else if parsed.tool.value == DeleteRecords then
      if parsed.target in RECORD_KINDS then None else Some(UnknownKind)
    else if parsed.target !in o.services then Some(UnknownService)
    else if parsed.tool.value == ClearCache && o.services[parsed.target].disk.None? then Some(NoDiskSurface)
    else None
  }

  /** A validated proposal can be fingerprinted: the unguarded lookups are safe. */
  lemma ValidatedHasFingerprint(o: Sweep, action: string)
    requires Parse(action).Some? && Validate(o, Parse(action).value).None?
    ensures Fingerprint(o, action).Some?
  {
  }

  /** A proposal validated against a real sweep is grounded, so its key is unique. */
  lemma ValidatedIsGrounded(w: World, action: string)
    requires Gather(w).Some?
    requires Parse(action).Some? && Validate(Gather(w).value, Parse(action).value).None?
    ensures Grounded(action)
  {
  }

  // ---- Risk policy. ----

  datatype Tier = LowRisk | MediumRisk | HighRisk

  predicate ForcedHigh(tool: Option<Tool>) {
    tool == Some(DeleteRecords) || tool == Some(RollbackDeployment)
  }

  /** `situational_features`, as far as the policy reads them: replicas and restart count. */
  function Situational(o: Sweep, parsed: Parsed): Option<(int, int)> {
    if parsed.tool == Some(DeleteRecords) || parsed.target !in o.services then None
    else Some((o.services[parsed.target].replicas, o.services[parsed.target].restarts))
  }

  function ApplyPolicy(tool: Option<Tool>, llm: Tier, situational: Option<(int, int)>): Tier {
    if ForcedHigh(tool) then HighRisk
    else if llm == LowRisk && situational.Some?
            && situational.value.0 < MIN_REDUNDANT_REPLICAS && situational.value.1 >= 1 then MediumRisk
    else llm
  }

  // ---- What the sweep sees of one record kind. ----

  /** The ids of `kind` among the first 1000 rows: what the fingerprint of a delete holds. */
  function VisibleIds(t: Table, kind: string): seq<int> {
    Sorted(KindIds(ByKind(t, None, SWEEP_LIMIT), kind))
  }

  /** Every row of `kind` is among the first 1000 rows of the whole table. */
  ghost predicate AllVisible(t: Table, kind: string) {
    forall i | i in IdsOfKind(t.rows, kind) :: i in Take(Ascending(t.rows.Keys), SWEEP_LIMIT)
  }

  lemma {:induction false} SortedIdentity(xs: seq<int>)
    requires Increasing(xs)
    ensures Sorted(xs) == xs
  {
    if xs != [] {
      SortedIdentity(xs[1..]);
      assert xs == [xs[0]] + xs[1..];
      assert |xs| > 1 ==> xs[0] < xs[1];
    }
  }

  lemma {:induction false} KindIdsMembers(rows: seq<Row>, kind: string)
    ensures forall i :: i in KindIds(rows, kind) <==>
      exists k :: 0 <= k < |rows| && rows[k].id == i && rows[k].kind == kind
    ensures |KindIds(rows, kind)| <= |rows|
  {
    if rows != [] {
      var tail := rows[1..];
      KindIdsMembers(tail, kind);
      assert forall k :: 0 < k < |rows| ==> rows[k] == tail[k - 1];
      forall i | i in KindIds(tail, kind)
        ensures exists k :: 0 <= k < |rows| && rows[k].id == i && rows[k].kind == kind
      {
        var k :| 0 <= k < |tail| && tail[k].id == i && tail[k].kind == kind;
        assert rows[k + 1].id == i && rows[k + 1].kind == kind;
      }
    }
  }

  lemma {:induction false} KindIdsIncreasing(rows: seq<Row>, kind: string)
    requires Increasing(IdsIn(rows))
    ensures Increasing(KindIds(rows, kind))
  {
    if rows != [] {
      var tail := rows[1..];
      assert IdsIn(tail) == IdsIn(rows)[1..];
      KindIdsIncreasing(tail, kind);
      KindIdsMembers(tail, kind);
      forall i | i in KindIds(tail, kind)
        ensures rows[0].id < i
      {
        var k :| 0 <= k < |tail| && tail[k].id == i && tail[k].kind == kind;
        assert IdsIn(rows)[0] < IdsIn(rows)[k + 1];
      }
      assert forall j :: 0 <= j < |KindIds(tail, kind)| ==> KindIds(tail, kind)[j] in KindIds(tail, kind);
    }
  }

  /** An increasing `a` inside an increasing `b` whose other elements all come later is a prefix. */
  lemma PrefixIfRestLater(a: seq<int>, b: seq<int>)
    requires Increasing(a) && Increasing(b)
    requires forall i | i in a :: i in b
    requires forall i, j :: i in a && j in b && j !in a ==> i < j
    ensures a <= b
    ensures a == b <==> forall j | j in b :: j in a
  {
    var rest := set j | j in b && j !in a;
    var tail := Ascending(rest);
    AscendingIncreases(rest);
    assert Increasing(a + tail) by {
      forall j, k | 0 <= j < |a| && 0 <= k < |tail|
        ensures a[j] < tail[k]
      {
        assert a[j] in a && tail[k] in rest;
      }
    }
    forall i
      ensures i in a + tail <==> i in b
    {
      assert i in a + tail <==> i in a || i in rest;
    }
    IncreasingUnique(a + tail, b);
  }

  /** The visible ids of a kind are a prefix of all its ids in order. */
  lemma VisibleIsPrefix(t: Table, kind: string)
    ensures var all := Ascending(IdsOfKind(t.rows, kind));
      && |VisibleIds(t, kind)| <= SWEEP_LIMIT
      && VisibleIds(t, kind) <= all
      && (VisibleIds(t, kind) == all <==> AllVisible(t, kind))
  {
    var keys := Ascending(t.rows.Keys);
    var seen := VisibleIds(t, kind);
    var all := Ascending(IdsOfKind(t.rows, kind));
    AscendingIncreases(t.rows.Keys);
    AscendingIncreases(IdsOfKind(t.rows, kind));
    SeenExactly(t, kind);
    forall i, j | i in seen && j in all && j !in seen
      ensures i < j
    {
      PastTheLimit(keys, i, j);
    }
    PrefixIfRestLater(seen, all);
  }

  lemma SeenExactly(t: Table, kind: string)
    ensures var seen := VisibleIds(t, kind);
      && Increasing(seen)
      && |seen| <= SWEEP_LIMIT
      && forall i :: i in seen <==> i in Take(Ascending(t.rows.Keys), SWEEP_LIMIT) && i in IdsOfKind(t.rows, kind)
  {
    var rows := ByKind(t, None, SWEEP_LIMIT);
    var first := Take(Ascending(t.rows.Keys), SWEEP_LIMIT);
    AscendingIncreases(t.rows.Keys);
    assert IdsIn(rows) == first;
    KindIdsIncreasing(rows, kind);
    KindIdsMembers(rows, kind);
    SortedIdentity(KindIds(rows, kind));
    assert forall k :: 0 <= k < |rows| ==> rows[k].id == first[k] && rows[k].kind == t.rows[first[k]].kind;
    forall i | i in first && i in IdsOfKind(t.rows, kind)
      ensures i in KindIds(rows, kind)
    {
      var k :| 0 <= k < |first| && first[k] == i;
      assert rows[k].id == i && rows[k].kind == kind;
    }
    forall i | i in KindIds(rows, kind)
      ensures i in first && i in IdsOfKind(t.rows, kind)
    {
      var k :| 0 <= k < |rows| && rows[k].id == i && rows[k].kind == kind;
      assert first[k] == i;
    }
  }

  lemma PastTheLimit(keys: seq<int>, early: int, late: int)
    requires Increasing(keys)
    requires early in Take(keys, SWEEP_LIMIT) && late in keys && late !in Take(keys, SWEEP_LIMIT)
    ensures early < late
  {
    var first := Take(keys, SWEEP_LIMIT);
    assert forall i :: 0 <= i < |first| ==> first[i] == keys[i] && keys[i] in first;
    var j :| 0 <= j < |first| && first[j] == early;
    var k :| 0 <= k < |keys| && keys[k] == late;
    assert |first| <= k;
  }

  /** What a delete without explicit ids does under a new key. */
  lemma DeleteOutcome(now: World, kind: string, ledger: Ledger, key: string)
    requires key !in ledger
    ensures var out := RunIdempotent(now, ledger, key, DeleteCall(kind, None)).value;
      var ids := IdsIn(ByKind(now.table, Some(kind), NO_LIMIT));
      && out.performed && out.entry.result == Deleted(kind, ids)
      && out.world.services == now.services && out.world.table == Delete(now.table, ids)
  {
  }

  /** An approved delete without explicit ids removes exactly the ids fingerprinted if and only
      if every row of the kind lies among the first 1000 rows of the table; whatever it removes,
      every other row stays as it was. */
  lemma ApprovedDelete(proposal: World, now: World, kind: string, ledger: Ledger, key: string)
    requires Gather(proposal).Some? && Gather(now).Some?
    requires RelevantFields(Gather(proposal).value, Some(DeleteRecords), kind)
          == RelevantFields(Gather(now).value, Some(DeleteRecords), kind)
    requires key !in ledger
    ensures var seen := VisibleIds(proposal.table, kind);
      var out := RunIdempotent(now, ledger, key, DeleteCall(kind, None)).value;
      && out.performed
      && out.entry.result.Deleted?
      && (out.entry.result.ids == seen <==> AllVisible(now.table, kind))
      && (forall i :: i in out.world.table.rows <==> i in now.table.rows && i !in out.entry.result.ids)
      && (forall i | i in out.world.table.rows :: out.world.table.rows[i] == now.table.rows[i])
      && (forall i | i in out.entry.result.ids :: i in IdsOfKind(now.table.rows, kind))
      && out.world.services == now.services
  {
    DeleteOutcome(now, kind, ledger, key);
    DeletesWhatWasSeen(now.table, kind);
    assert VisibleIds(proposal.table, kind) == VisibleIds(now.table, kind);
  }

  lemma DeletesWhatWasSeen(t: Table, kind: string)
    ensures var deleted := IdsIn(ByKind(t, Some(kind), NO_LIMIT));
      && (deleted == VisibleIds(t, kind) <==> AllVisible(t, kind))
      && forall i | i in deleted :: i in IdsOfKind(t.rows, kind)
  {
    VisibleIsPrefix(t, kind);
    var all := Ascending(IdsOfKind(t.rows, kind));
    var deleted := IdsIn(ByKind(t, Some(kind), NO_LIMIT));
    assert deleted == Take(all, NO_LIMIT);
    assert |all| > |VisibleIds(t, kind)| ==> |deleted| > |VisibleIds(t, kind)|;
    forall i | i in deleted
      ensures i in IdsOfKind(t.rows, kind)
    {
      assert i in all;
    }
  }

  /** A table of at most 1000 rows hides nothing from the sweep. */
  lemma SmallTableAllVisible(t: Table, kind: string)
    requires |t.rows| <= SWEEP_LIMIT
    ensures AllVisible(t, kind)
  {
    assert |t.rows.Keys| == |t.rows|;
  }

  /** Rows 1 to `n`, all of one kind. */
  function Crowd(n: nat, row: Record): map<int, Record> {
    if n == 0 then map[] else Crowd(n - 1, row)[n := row]
  }

  lemma {:induction false} CrowdShape(n: nat, row: Record)
    ensures |Crowd(n, row)| == n
    ensures forall i :: i in Crowd(n, row) <==> 1 <= i <= n
    ensures IdsOfKind(Crowd(n, row), row.kind) == Crowd(n, row).Keys
  {
    if n > 0 {
      CrowdShape(n - 1, row);
      assert Crowd(n, row).Keys == Crowd(n - 1, row).Keys + {n};
      assert |Crowd(n, row)| == |Crowd(n, row).Keys| && |Crowd(n - 1, row)| == |Crowd(n - 1, row).Keys|;
    }
  }

  /** With 1001 rows of the kind the delete removes the one nobody saw. */
  lemma ThousandAndOneRowsDiffer(row: Record)
    ensures var t := Table(Crowd(SWEEP_LIMIT + 1, row), SWEEP_LIMIT + 2);
      var deleted := IdsIn(ByKind(t, Some(row.kind), NO_LIMIT));
      && !AllVisible(t, row.kind)
      && |deleted| == SWEEP_LIMIT + 1 && |VisibleIds(t, row.kind)| == SWEEP_LIMIT
      && exists i :: i in deleted && i !in VisibleIds(t, row.kind) && i !in Delete(t, deleted).rows
  {
    var t := Table(Crowd(SWEEP_LIMIT + 1, row), SWEEP_LIMIT + 2);
    CrowdShape(SWEEP_LIMIT + 1, row);
    assert |t.rows.Keys| == |t.rows|;
    VisibleIsPrefix(t, row.kind);
    OneTooMany(t, row.kind);
  }

  lemma OneTooMany(t: Table, kind: string)
    requires IdsOfKind(t.rows, kind) == t.rows.Keys && |t.rows.Keys| == SWEEP_LIMIT + 1
    ensures var deleted := IdsIn(ByKind(t, Some(kind), NO_LIMIT));
      && |deleted| == SWEEP_LIMIT + 1 && |VisibleIds(t, kind)| == SWEEP_LIMIT
      && exists i :: i in deleted && i !in VisibleIds(t, kind) && i !in Delete(t, deleted).rows
  {
    var keys := Ascending(t.rows.Keys);
    FirstAreSeen(t, kind);
    assert IdsIn(ByKind(t, Some(kind), NO_LIMIT)) == keys;
    LastNotFirst(keys, SWEEP_LIMIT);
    assert keys[SWEEP_LIMIT] in keys;
  }

  lemma FirstAreSeen(t: Table, kind: string)
    requires IdsOfKind(t.rows, kind) == t.rows.Keys
    ensures VisibleIds(t, kind) == Take(Ascending(t.rows.Keys), SWEEP_LIMIT)
    ensures Increasing(Ascending(t.rows.Keys))
  {
    AscendingIncreases(t.rows.Keys);
    SeenExactly(t, kind);
    IncreasingUnique(VisibleIds(t, kind), Take(Ascending(t.rows.Keys), SWEEP_LIMIT));
  }

  lemma LastNotFirst(keys: seq<int>, n: nat)
    requires Increasing(keys) && |keys| == n + 1
    ensures |Take(keys, n)| == n && keys[n] !in Take(keys, n)
  {
    assert forall k :: 0 <= k < n ==> Take(keys, n)[k] == keys[k] && keys[k] < keys[n];
  }

  // ---- Scope of the drift check. ----

  /** The rows with a smaller id than `i`. */
  function Smaller(t: Table, i: int): set<int> { set j | j in t.rows && j < i }

  /** A row of the kind with fewer than 1000 rows before it. */
  ghost predicate Shown(t: Table, kind: string, i: int) {
    i in IdsOfKind(t.rows, kind) && |Smaller(t, i)| < SWEEP_LIMIT
  }

  /** The sweep shows exactly the rows of the kind with fewer than 1000 rows before them. */
  lemma SeenIsShown(t: Table, kind: string)
    ensures forall i :: i in VisibleIds(t, kind) <==> Shown(t, kind, i)
    ensures AllVisible(t, kind) <==> forall i | i in IdsOfKind(t.rows, kind) :: |Smaller(t, i)| < SWEEP_LIMIT
  {
    SeenExactly(t, kind);
    forall i | i in IdsOfKind(t.rows, kind)
      ensures i in Take(Ascending(t.rows.Keys), SWEEP_LIMIT) <==> |Smaller(t, i)| < SWEEP_LIMIT
    {
      FirstByRank(t.rows.Keys, SWEEP_LIMIT, i);
      assert Smaller(t, i) == Below(t.rows.Keys, i);
    }
  }

  /** The world still shows `action` what it showed before: its target service looks the same, or
      (for a delete) the same rows of the kind have fewer than 1000 rows before them. */
  ghost predicate TargetUntouched(w: World, v: World, parsed: Parsed) {
    if parsed.tool == Some(DeleteRecords) then
      forall i :: Shown(w.table, parsed.target, i) <==> Shown(v.table, parsed.target, i)
    else
      parsed.target in w.services && parsed.target in v.services
      && w.services[parsed.target] == v.services[parsed.target]
  }

  lemma UntouchedNoDrift(w: World, v: World, action: string)
    requires Gather(w).Some? && Gather(v).Some?
    requires Parse(action).Some? && TargetUntouched(w, v, Parse(action).value)
    ensures Fingerprint(Gather(w).value, action) == Fingerprint(Gather(v).value, action)
  {
    var parsed := Parse(action).value;
    UntouchedSameFields(w, v, KNOWN_SERVICES, parsed);
  }

  lemma UntouchedSameFields(w: World, v: World, names: seq<string>, parsed: Parsed)
    requires GatherFrom(w, names).Some? && GatherFrom(v, names).Some?
    requires TargetUntouched(w, v, parsed)
    ensures RelevantFields(GatherFrom(w, names).value, parsed.tool, parsed.target)
         == RelevantFields(GatherFrom(v, names).value, parsed.tool, parsed.target)
  {
    if parsed.tool == Some(DeleteRecords) {
      DeleteDriftExactly(w, v, parsed.target);
    } else {
      SameServiceSameFields(GatherFrom(w, names).value, GatherFrom(v, names).value, parsed.tool, parsed.target);
    }
  }

  /** Every tool but the delete looks at its target's view only. */
  lemma SameServiceSameFields(a: Sweep, b: Sweep, tool: Option<Tool>, target: string)
    requires tool != Some(DeleteRecords)
    requires target in a.services <==> target in b.services
    requires target in a.services ==> a.services[target] == b.services[target]
    ensures RelevantFields(a, tool, target) == RelevantFields(b, tool, target)
  {
  }

  /** Exactly when a delete sees no drift, whatever changed: the same rows of its kind have fewer than 1000 rows of
      any kind before them. If only other kinds changed, that is: each row of the kind had fewer than
      1000 rows before it if and only if it still has. */
  lemma DeleteDriftExactly(w: World, v: World, kind: string)
    ensures VisibleIds(w.table, kind) == VisibleIds(v.table, kind)
       <==> forall i :: Shown(w.table, kind, i) <==> Shown(v.table, kind, i)
    ensures IdsOfKind(w.table.rows, kind) == IdsOfKind(v.table.rows, kind) ==>
      (VisibleIds(w.table, kind) == VisibleIds(v.table, kind)
       <==> forall i | i in IdsOfKind(w.table.rows, kind) ::
              (|Smaller(w.table, i)| < SWEEP_LIMIT <==> |Smaller(v.table, i)| < SWEEP_LIMIT))
  {
    SeenIsShown(w.table, kind);
    SeenIsShown(v.table, kind);
    SeenExactly(w.table, kind);
    SeenExactly(v.table, kind);
    if forall i :: Shown(w.table, kind, i) <==> Shown(v.table, kind, i) {
      IncreasingUnique(VisibleIds(w.table, kind), VisibleIds(v.table, kind));
    }
    if IdsOfKind(w.table.rows, kind) == IdsOfKind(v.table.rows, kind) {
      RanksDecide(w.table, v.table, kind);
    }
  }

  lemma RanksDecide(t: Table, u: Table, kind: string)
    requires IdsOfKind(t.rows, kind) == IdsOfKind(u.rows, kind)
    ensures (forall i :: Shown(t, kind, i) <==> Shown(u, kind, i)) <==>
      forall i | i in IdsOfKind(t.rows, kind) :: (|Smaller(t, i)| < SWEEP_LIMIT <==> |Smaller(u, i)| < SWEEP_LIMIT)
  {
    if forall i :: Shown(t, kind, i) <==> Shown(u, kind, i) {
      forall i | i in IdsOfKind(t.rows, kind)
        ensures |Smaller(t, i)| < SWEEP_LIMIT <==> |Smaller(u, i)| < SWEEP_LIMIT
      {
        assert Shown(t, kind, i) <==> Shown(u, kind, i);
      }
    }
  }

  /** If the 1001st row is of the kind, the sweep misses it. */
  lemma NextRowHidden(t: Table, kind: string)
    requires |t.rows| > SWEEP_LIMIT
    requires Ascending(t.rows.Keys)[SWEEP_LIMIT] in IdsOfKind(t.rows, kind)
    ensures !AllVisible(t, kind)
  {
    var keys := Ascending(t.rows.Keys);
    var first := Take(keys, SWEEP_LIMIT);
    AscendingIncreases(t.rows.Keys);
    assert forall k :: 0 <= k < |first| ==> first[k] == keys[k] && keys[k] < keys[SWEEP_LIMIT];
  }

  /** A full sweep of 1000 rows of one kind: another actor's row of a different kind and a smaller
      id pushes one of them out, so an unrelated insert is reported as drift. */
  lemma OtherKindCanDrift(row: Record, other: Record)
    requires row.kind != other.kind
    ensures var t := Table(Crowd(SWEEP_LIMIT, row), SWEEP_LIMIT + 1);
      var u := Insert(t, NewRow(Some(0), other.kind, other.payload));
      && IdsOfKind(u.rows, row.kind) == IdsOfKind(t.rows, row.kind)
      && VisibleIds(u, row.kind) != VisibleIds(t, row.kind)
  {
    var rows := Crowd(SWEEP_LIMIT, row);
    CrowdShape(SWEEP_LIMIT, row);
    assert |rows.Keys| == |rows|;
    PushedOut(rows, row.kind, other, SWEEP_LIMIT + 1);
  }

  lemma PushedOut(rows: map<int, Record>, kind: string, other: Record, n: int)
    requires |rows.Keys| == SWEEP_LIMIT && IdsOfKind(rows, kind) == rows.Keys
    requires other.kind != kind && forall i | i in rows :: i > 0
    ensures IdsOfKind(rows[0 := other], kind) == rows.Keys
    ensures VisibleIds(Table(rows[0 := other], n), kind) != VisibleIds(Table(rows, n), kind)
  {
    LastMovesOut(rows, kind, other);
    SmallTableAllVisible(Table(rows, n), kind);
    VisibleIsPrefix(Table(rows, n), kind);
    NextRowHidden(Table(rows[0 := other], n), kind);
    VisibleIsPrefix(Table(rows[0 := other], n), kind);
  }

  /** With a row of id 0 the last of the others becomes the 1001st. */
  lemma LastMovesOut(rows: map<int, Record>, kind: string, other: Record)
    requires |rows.Keys| == SWEEP_LIMIT && IdsOfKind(rows, kind) == rows.Keys
    requires other.kind != kind && forall i | i in rows :: i > 0
    ensures var more := rows[0 := other];
      && |more| == SWEEP_LIMIT + 1 && IdsOfKind(more, kind) == rows.Keys
      && |Ascending(more.Keys)| == SWEEP_LIMIT + 1 && Ascending(more.Keys)[SWEEP_LIMIT] in rows.Keys
  {
    var more := rows[0 := other];
    assert more.Keys == rows.Keys + {0} && |more| == |more.Keys|;
    assert IdsOfKind(more, kind) == rows.Keys;
    var keys := Ascending(more.Keys);
    AscendingIncreases(more.Keys);
    assert keys[0] < keys[SWEEP_LIMIT] && keys[0] in more.Keys && keys[SWEEP_LIMIT] in more.Keys;
  }

  /** What other actors may do: requests to services, inserts and deletes of records. */
  datatype Change = ServiceChange(service: string, op: Op) | InsertRow(row: NewRow) | DeleteRow(id: int)

  function Changed(w: World, c: Change): World {
    match c
    case ServiceChange(s, op) =>
      if s in w.services then w.(services := w.services[s := After(w.services[s], op)]) else w
    case InsertRow(row) => w.(table := Insert(w.table, row))
    case DeleteRow(id) => w.(table := Delete(w.table, [id]))
  }

  function ChangedBy(w: World, cs: seq<Change>): World {
    if cs == [] then w else Changed(ChangedBy(w, cs[..|cs| - 1]), cs[|cs| - 1])
  }

  /** Every change goes to another service, or to records when the target is a service. */
  ghost predicate AllElsewhere(cs: seq<Change>, target: string) {
    forall c | c in cs :: c.ServiceChange? ==> c.service != target
  }

  /** No sequence of changes to other services or to the records makes a service action drift,
      and the sweep still succeeds. */
  lemma {:induction false} ChangesElsewhereNoDrift(w: World, cs: seq<Change>, action: string)
    requires Gather(w).Some?
    requires Parse(action).Some? && Parse(action).value.tool != Some(DeleteRecords)
    requires AllElsewhere(cs, Parse(action).value.target)
    ensures Gather(ChangedBy(w, cs)).Some?
    ensures Fingerprint(Gather(ChangedBy(w, cs)).value, action) == Fingerprint(Gather(w).value, action)
  {
    var parsed := Parse(action).value;
    ChangesElsewhere(w, cs, parsed.target);
    SameLookSameFields(w, ChangedBy(w, cs), KNOWN_SERVICES, parsed.tool, parsed.target);
  }

  lemma SameLookSameFields(w: World, v: World, names: seq<string>, tool: Option<Tool>, target: string)
    requires LooksSame(w, v, target) && GatherFrom(w, names).Some? && tool != Some(DeleteRecords)
    ensures GatherFrom(v, names).Some?
    ensures RelevantFields(GatherFrom(v, names).value, tool, target)
      == RelevantFields(GatherFrom(w, names).value, tool, target)
  {
    assert forall n | n in names :: Reachable(w, n);
    SameServiceSameFields(GatherFrom(v, names).value, GatherFrom(w, names).value, tool, target);
  }

  lemma {:induction false} ChangesElsewhere(w: World, cs: seq<Change>, target: string)
    requires AllElsewhere(cs, target)
    ensures LooksSame(w, ChangedBy(w, cs), target)
  {
    if cs != [] {
      var n := |cs| - 1;
      assert forall c | c in cs[..n] :: c in cs;
      ChangesElsewhere(w, cs[..n], target);
      assert cs[n] in cs;
      OneChangeElsewhere(ChangedBy(w, cs[..n]), cs[n], target);
    }
  }

  /** The same services with the same endpoints, and `target` itself unchanged. */
  ghost predicate LooksSame(w: World, v: World, target: string) {
    && v.services.Keys == w.services.Keys
    && (forall s | s in w.services :: v.services[s].hasDisk == w.services[s].hasDisk)
    && (target in w.services ==> v.services[target] == w.services[target])
  }

  lemma OneChangeElsewhere(w: World, c: Change, target: string)
    requires c.ServiceChange? ==> c.service != target
    ensures LooksSame(w, Changed(w, c), target)
  {
  }
}
