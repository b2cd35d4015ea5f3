/** One mock service of the sandbox (src/env/mock_service/state.py): its value,
    the operations its HTTP endpoints offer, and the mutable object itself. */
module MockService {
  import opened Options

  datatype FaultType = MemoryLeak | HighErrorRate | CpuSpike | ServiceDown | DiskFull
  datatype FaultRate = LowRate | MediumRate | HighRate
  datatype Health = Healthy | Degraded | Unhealthy

  const BASELINE_MEMORY_PCT: real := 20.0
  const BASELINE_CPU_PCT: real := 15.0
  const BASELINE_DISK_PCT: real := 30.0
  const BASELINE_ERROR_RATE: real := 0.0
  const BASELINE_REPLICAS: int := 1
  const BASELINE_CONFIG: map<string, string> :=
    map["log_level" := "info", "max_connections" := "100", "cache_ttl_seconds" := "300"]
  const BASELINE_VERSION_HISTORY: History := ["v1.0.0", "v1.1.0", "v1.2.0"]

  const DEGRADED_THRESHOLD: real := 75.0
  const UNHEALTHY_THRESHOLD: real := 90.0
  const DEGRADED_ERROR_RATE: real := 0.1
  const UNHEALTHY_ERROR_RATE: real := 0.5

  /** A version history is never empty: `rollback` refuses to pop the last entry. */
  type History = h: seq<string> | |h| > 0 witness ["v1.0.0"]

  function Magnitude(rate: FaultRate): real {
    match rate
    case LowRate => 65.0
    case MediumRate => 80.0
    case HighRate => 95.0
  }

  function ErrorMagnitude(rate: FaultRate): real {
    match rate
    case LowRate => 0.15
    case MediumRate => 0.3
    case HighRate => 0.6
  }

  /** `[f for f in faults if f == fault]` when `keep`, `[... if f != fault]` otherwise. */
  function Filter(faults: seq<FaultType>, fault: FaultType, keep: bool): seq<FaultType> {
    if faults == [] then []
    else if (faults[0] == fault) == keep then [faults[0]] + Filter(faults[1..], fault, keep)
    else Filter(faults[1..], fault, keep)
  }

  function Max(x: real, y: real): real { if x < y then y else x }

  /** The fields of a `ServiceState`, as a value. */
  datatype Service = Service(
    hasDisk: bool,
    memory: real,
    cpu: real,
    disk: real,
    errorRate: real,
    down: bool,
    restarts: int,
    faults: seq<FaultType>,
    replicas: int,
    config: map<string, string>,
    versions: History)
  {
    function Version(): string { versions[|versions| - 1] }

    function Status(): Health {
      if down || errorRate >= UNHEALTHY_ERROR_RATE then Unhealthy
      else
        var worst := Max(Max(memory, cpu), if hasDisk then disk else 0.0);
        if worst >= UNHEALTHY_THRESHOLD then Unhealthy
        else if worst >= DEGRADED_THRESHOLD || errorRate >= DEGRADED_ERROR_RATE then Degraded
        else Healthy
    }

    /** What `restart` and `rollback` both clear: everything transient, not the disk. */
    function Cleared(): Service {
      this.(memory := BASELINE_MEMORY_PCT, cpu := BASELINE_CPU_PCT, errorRate := BASELINE_ERROR_RATE,
            down := false, faults := Filter(faults, DiskFull, true))
    }

    function Restarted(): Service { Cleared().(restarts := restarts + 1) }

    function Scaled(n: int): Service { this.(replicas := n) }

    function Configured(key: string, value: string): Service { this.(config := config[key := value]) }

    function DiskCleaned(): Service {
      this.(disk := BASELINE_DISK_PCT, faults := Filter(faults, DiskFull, false))
    }

    function RolledBack(): Option<Service> {
      if |versions| < 2 then None else Some(Cleared().(versions := versions[..|versions| - 1]))
    }

    function Deployed(version: string): Service {
      if version != Version() then this.(versions := versions + [version]) else this
    }

    function Faulted(fault: FaultType, rate: FaultRate): Option<Service> {
      if fault == DiskFull && !hasDisk then None
      else
        var hit := match fault
          case MemoryLeak => this.(memory := Magnitude(rate))
          case CpuSpike => this.(cpu := Magnitude(rate))
          case HighErrorRate => this.(errorRate := ErrorMagnitude(rate))
          case ServiceDown => this.(down := true, errorRate := 1.0)
          case DiskFull => this.(disk := Magnitude(rate));
        Some(if fault in faults then hit else hit.(faults := faults + [fault]))
    }

    function Reset(): Service {
      Service(hasDisk, BASELINE_MEMORY_PCT, BASELINE_CPU_PCT, BASELINE_DISK_PCT, BASELINE_ERROR_RATE,
              false, 0, [], BASELINE_REPLICAS, BASELINE_CONFIG, BASELINE_VERSION_HISTORY)
    }

    /** The representation invariant: the fault list says exactly which metric is off baseline. */
    ghost predicate ValidRep() {
      && NoRepeat(faults)
      && (MemoryLeak in faults <==> memory != BASELINE_MEMORY_PCT)
      && (CpuSpike in faults <==> cpu != BASELINE_CPU_PCT)
      && (DiskFull in faults <==> disk != BASELINE_DISK_PCT)
      && (ServiceDown in faults <==> down)
      && (HighErrorRate in faults || ServiceDown in faults <==> errorRate != BASELINE_ERROR_RATE)
      && (DiskFull in faults ==> hasDisk)
      && NoAdjacentRepeat(versions)
    }
  }

  ghost predicate NoRepeat(faults: seq<FaultType>) {
    forall i, j :: 0 <= i < j < |faults| ==> faults[i] != faults[j]
  }

  ghost predicate NoAdjacentRepeat(versions: seq<string>) {
    forall i :: 0 < i < |versions| ==> versions[i - 1] != versions[i]
  }

  function NewService(hasDisk: bool, replicas: int): Service {
    Service(hasDisk, BASELINE_MEMORY_PCT, BASELINE_CPU_PCT, BASELINE_DISK_PCT, BASELINE_ERROR_RATE,
            false, 0, [], replicas, BASELINE_CONFIG, BASELINE_VERSION_HISTORY)
  }

  /** Every request that can change a service; `None` from `Request` is an HTTP error, which changes nothing. */
  datatype Op =
    | Restart
    | Scale(n: int)
    | SetConfig(key: string, value: string)
    | CleanDisk
    | Rollback
    | Deploy(version: string)
    | InjectFault(fault: FaultType, rate: FaultRate)
    | ResetAll

  function Request(s: Service, op: Op): Option<Service> {
    match op
    case Restart => Some(s.Restarted())
    case Scale(n) => Some(s.Scaled(n))
    case SetConfig(k, v) => Some(s.Configured(k, v))
    case CleanDisk => if s.hasDisk then Some(s.DiskCleaned()) else None
    case Rollback => s.RolledBack()
    case Deploy(v) => Some(s.Deployed(v))
    case InjectFault(f, r) => s.Faulted(f, r)
    case ResetAll => Some(s.Reset())
  }

  function After(s: Service, op: Op): Service {
    match Request(s, op)
    case Some(t) => t
    case None => s
  }

  function Serve(s: Service, ops: seq<Op>): Service {
    if ops == [] then s else After(Serve(s, ops[..|ops| - 1]), ops[|ops| - 1])
  }

  lemma {:induction false} FilterContents(faults: seq<FaultType>, fault: FaultType, keep: bool)
    ensures forall f :: f in Filter(faults, fault, keep) <==> f in faults && (f == fault) == keep
    ensures NoRepeat(faults) ==> NoRepeat(Filter(faults, fault, keep))
    ensures (forall f | f in faults :: (f == fault) != keep) ==> Filter(faults, fault, keep) == []
  {
    if faults != [] {
      var tail := faults[1..];
      FilterContents(tail, fault, keep);
      assert faults == [faults[0]] + tail;
      assert faults[0] in faults && forall f | f in tail :: f in faults;
      if NoRepeat(faults) {
        assert faults[0] !in tail;
      }
    }
  }

  lemma HistoryKept(s: Service, op: Op)
    requires NoAdjacentRepeat(s.versions)
    ensures NoAdjacentRepeat(After(s, op).versions)
  {
  }

  lemma ClearedKeepsRep(s: Service)
    requires s.ValidRep()
    ensures s.Cleared().ValidRep()
  {
    FilterContents(s.faults, DiskFull, true);
  }

  lemma DiskCleanedKeepsRep(s: Service)
    requires s.ValidRep()
    ensures s.DiskCleaned().ValidRep()
  {
    FilterContents(s.faults, DiskFull, false);
  }

  lemma ResetHasRep(hasDisk: bool, replicas: int)
    ensures NewService(hasDisk, replicas).ValidRep()
  {
  }

  /** Replicas, configuration, restart count and versions play no part beyond the history's own condition. */
  lemma RepByMetrics(s: Service, t: Service)
    requires s.ValidRep() && NoAdjacentRepeat(t.versions)
    requires t == s.(restarts := t.restarts, replicas := t.replicas, config := t.config, versions := t.versions)
    ensures t.ValidRep()
  {
  }

  lemma RequestKeepsDisk(s: Service, op: Op)
    ensures After(s, op).hasDisk == s.hasDisk
  {
  }

  lemma RequestKeepsRep(s: Service, op: Op)
    requires s.ValidRep()
    ensures After(s, op).ValidRep()
    ensures After(s, op).hasDisk == s.hasDisk
  {
    HistoryKept(s, op);
    RequestKeepsDisk(s, op);
    if op.CleanDisk? {
      DiskCleanedKeepsRep(s);
    } else if op.ResetAll? {
      ResetHasRep(s.hasDisk, BASELINE_REPLICAS);
    } else if op.InjectFault? {
      if s.Faulted(op.fault, op.rate).Some? {
        FaultKeepsRep(s, op.fault, op.rate);
      }
    } else if op.Restart? || (op.Rollback? && s.RolledBack().Some?) {
      ClearedKeepsRep(s);
      RepByMetrics(s.Cleared(), After(s, op));
    } else {
      RepByMetrics(s, After(s, op));
    }
  }

  lemma FaultListed(faults: seq<FaultType>, fault: FaultType)
    ensures var listed := if fault in faults then faults else faults + [fault];
      && (forall f :: f in listed <==> f in faults || f == fault)
      && (NoRepeat(faults) ==> NoRepeat(listed))
  {
  }

  lemma MagnitudesOffBaseline(rate: FaultRate)
    ensures Magnitude(rate) > BASELINE_DISK_PCT && ErrorMagnitude(rate) > BASELINE_ERROR_RATE
  {
  }

  lemma FaultKeepsRep(s: Service, fault: FaultType, rate: FaultRate)
    requires s.ValidRep() && s.Faulted(fault, rate).Some?
    ensures s.Faulted(fault, rate).value.ValidRep()
  {
    FaultListed(s.faults, fault);
    MagnitudesOffBaseline(rate);
    match fault
    case MemoryLeak =>
    case CpuSpike =>
    case HighErrorRate =>
    case ServiceDown =>
    case DiskFull =>
  }

  /** The representation invariant holds after every sequence of requests, in any order. */
  lemma {:induction false} RepInvariant(s: Service, ops: seq<Op>)
    requires s.ValidRep()
    ensures Serve(s, ops).ValidRep()
    ensures Serve(s, ops).hasDisk == s.hasDisk
  {
    if ops != [] {
      RepInvariant(s, ops[..|ops| - 1]);
      RequestKeepsRep(Serve(s, ops[..|ops| - 1]), ops[|ops| - 1]);
    }
  }

  /** From a new disk service, whatever happened, a restart and then a cache clear
      leave it healthy with no active fault; without the cache clear it is healthy
      exactly when the disk is not above the degraded threshold. */
  lemma RestartThenCleanHeals(replicas: int, ops: seq<Op>)
    ensures var s := Serve(NewService(true, replicas), ops);
      && Serve(s, [Restart, CleanDisk]).Status() == Healthy
      && Serve(s, [Restart, CleanDisk]).faults == []
      && (Serve(s, [Restart]).Status() == Healthy <==> s.disk < DEGRADED_THRESHOLD)
  {
    RepInvariant(NewService(true, replicas), ops);
    var s := Serve(NewService(true, replicas), ops);
    var restarted := After(s, Restart);
    assert Serve(s, []) == s;
    assert [Restart][..0] == [];
    assert [Restart, CleanDisk][..1] == [Restart];
    assert Serve(s, [Restart]) == restarted;
    assert Serve(s, [Restart, CleanDisk]) == After(restarted, CleanDisk);
    FilterContents(s.faults, DiskFull, true);
    FilterContents(restarted.faults, DiskFull, false);
  }

  /** A service without a disk is healed by the restart alone. */
  lemma RestartHealsCompute(replicas: int, ops: seq<Op>)
    ensures Serve(NewService(false, replicas), ops).Restarted().Status() == Healthy
  {
    RepInvariant(NewService(false, replicas), ops);
  }

  /** A rollback is undone by deploying the popped version exactly when the two
      newest versions differ; deploying it again changes nothing more. */
  lemma RollbackUndo(s: Service)
    requires s.RolledBack().Some?
    ensures s.RolledBack().value.Deployed(s.Version()).versions == s.versions
            <==> s.versions[|s.versions| - 2] != s.Version()
    ensures var once := s.RolledBack().value.Deployed(s.Version()); once.Deployed(s.Version()) == once
  {
    var popped := s.versions[..|s.versions| - 1];
    assert popped + [s.Version()] == s.versions;
  }

  // ---- What the numbers mean. ----

  /** Health, from the fields alone: every metric counts, the disk only where there is one. */
  lemma HealthExactly(s: Service)
    ensures s.Status() == Healthy <==>
      !s.down && s.errorRate < 0.1 && s.memory < 75.0 && s.cpu < 75.0 && (s.hasDisk ==> s.disk < 75.0)
    ensures s.Status() == Unhealthy <==>
      s.down || s.errorRate >= 0.5 || s.memory >= 90.0 || s.cpu >= 90.0 || (s.hasDisk && s.disk >= 90.0)
  {
    var worst := Max(Max(s.memory, s.cpu), if s.hasDisk then s.disk else 0.0);
    assert worst < 75.0 <==> s.memory < 75.0 && s.cpu < 75.0 && (s.hasDisk ==> s.disk < 75.0);
    assert worst >= 90.0 <==> s.memory >= 90.0 || s.cpu >= 90.0 || (s.hasDisk && s.disk >= 90.0);
  }

  /** The load a rate stands for: of memory, cpu and disk in percent, and of failing requests. */
  ghost predicate LoadOf(rate: FaultRate, pct: real, errors: real) {
    || (rate == LowRate && pct == 65.0 && errors == 0.15)
    || (rate == MediumRate && pct == 80.0 && errors == 0.3)
    || (rate == HighRate && pct == 95.0 && errors == 0.6)
  }

  /** What an injected fault does to the fields: one metric, and the list of faults. */
  lemma FaultMeans(s: Service, fault: FaultType, rate: FaultRate)
    ensures s.Faulted(fault, rate).None? <==> fault == DiskFull && !s.hasDisk
    ensures s.Faulted(fault, rate).Some? ==>
      exists pct, errors :: LoadOf(rate, pct, errors) &&
        var t := s.Faulted(fault, rate).value;
        && t.memory == (if fault == MemoryLeak then pct else s.memory)
        && t.cpu == (if fault == CpuSpike then pct else s.cpu)
        && t.disk == (if fault == DiskFull then pct else s.disk)
        && t.errorRate == (if fault == HighErrorRate then errors else if fault == ServiceDown then 1.0 else s.errorRate)
        && (t.down <==> s.down || fault == ServiceDown)
        && t.faults == (if fault in s.faults then s.faults else s.faults + [fault])
        && t.hasDisk == s.hasDisk && t.restarts == s.restarts && t.replicas == s.replicas
        && t.config == s.config && t.versions == s.versions
  {
    assert LoadOf(rate, Magnitude(rate), ErrorMagnitude(rate));
  }

  /** What one injected fault makes of a service in good health: a low load passes unnoticed, low and medium error
      rates and medium loads degrade it, anything high and an outage at any rate make it unhealthy. */
  lemma FaultSickens(hasDisk: bool, replicas: int, fault: FaultType, rate: FaultRate)
    requires fault == DiskFull ==> hasDisk
    ensures NewService(hasDisk, replicas).Status() == Healthy
    ensures NewService(hasDisk, replicas).Faulted(fault, rate).Some?
    ensures var status := NewService(hasDisk, replicas).Faulted(fault, rate).value.Status();
      && (status == Unhealthy <==> fault == ServiceDown || rate == HighRate)
      && (status == Healthy <==> rate == LowRate && fault in {MemoryLeak, CpuSpike, DiskFull})
  {
    var s := NewService(hasDisk, replicas);
    FaultMeans(s, fault, rate);
    HealthExactly(s);
    HealthExactly(s.Faulted(fault, rate).value);
  }

  /** Everything transient is at baseline: memory, cpu, error rate and outage; of the faults a full disk stays. */
  ghost predicate Quiesced(s: Service, t: Service) {
    && t.memory == 20.0 && t.cpu == 15.0 && t.errorRate == 0.0 && !t.down
    && (forall f :: f in t.faults <==> f in s.faults && f == DiskFull)
    && t.disk == s.disk && t.hasDisk == s.hasDisk
  }

  /** Nothing transient changed. */
  ghost predicate SameLoad(s: Service, t: Service) {
    && t.memory == s.memory && t.cpu == s.cpu && t.disk == s.disk && t.errorRate == s.errorRate
    && t.down == s.down && t.faults == s.faults && t.hasDisk == s.hasDisk && t.restarts == s.restarts
  }

  /** What each other request does to the fields, or that it is refused. */
  ghost predicate Means(s: Service, op: Op, t: Option<Service>) {
    match op
    case Restart =>
      t.Some? && Quiesced(s, t.value) && t.value.restarts == s.restarts + 1
      && t.value.replicas == s.replicas && t.value.config == s.config && t.value.versions == s.versions
    case Scale(n) =>
      t.Some? && SameLoad(s, t.value)
      && t.value.replicas == n && t.value.config == s.config && t.value.versions == s.versions
    case SetConfig(k, v) =>
      t.Some? && SameLoad(s, t.value) && k in t.value.config && t.value.config[k] == v
      && (forall j | j != k :: (j in t.value.config <==> j in s.config)
                               && (j in s.config ==> t.value.config[j] == s.config[j]))
      && t.value.replicas == s.replicas && t.value.versions == s.versions
    case CleanDisk =>
      if !s.hasDisk then t.None?
      else t.Some? && t.value.disk == 30.0 && (forall f :: f in t.value.faults <==> f in s.faults && f != DiskFull)
           && SameLoad(s, t.value.(disk := s.disk, faults := s.faults))
           && t.value.replicas == s.replicas && t.value.config == s.config && t.value.versions == s.versions
    case Rollback =>
      if |s.versions| < 2 then t.None?
      else t.Some? && Quiesced(s, t.value) && t.value.restarts == s.restarts
           && t.value.versions == s.versions[..|s.versions| - 1]
           && t.value.replicas == s.replicas && t.value.config == s.config
    case Deploy(v) =>
      t.Some? && SameLoad(s, t.value)
      && t.value.versions == (if s.versions[|s.versions| - 1] == v then s.versions else s.versions + [v])
      && t.value.replicas == s.replicas && t.value.config == s.config
    case ResetAll =>
      t == Some(Service(s.hasDisk, 20.0, 15.0, 30.0, 0.0, false, 0, [], 1,
                        map["log_level" := "info", "max_connections" := "100", "cache_ttl_seconds" := "300"],
                        ["v1.0.0", "v1.1.0", "v1.2.0"]))
    case InjectFault(fault, rate) => t == s.Faulted(fault, rate)
  }

  lemma RequestMeans(s: Service, op: Op)
    ensures Means(s, op, Request(s, op))
    ensures forall n :: NewService(s.hasDisk, n) == s.Reset().(replicas := n)
  {
    FilterContents(s.faults, DiskFull, true);
    FilterContents(s.faults, DiskFull, false);
  }

  /** The service object the endpoints mutate. */
  class ServiceState {
    const hasDisk: bool
    var memoryPct: real
    var cpuPct: real
    var diskPct: real
    var errorRate: real
    var forcedDown: bool
    var restartCount: int
    var activeFaults: seq<FaultType>
    var replicas: int
    var config: map<string, string>
    var versionHistory: History

    ghost function Value(): Service
      reads this
    {
      Service(hasDisk, memoryPct, cpuPct, diskPct, errorRate, forcedDown, restartCount, activeFaults,
              replicas, config, versionHistory)
    }

    constructor (hasDisk: bool, replicas: int)
      ensures Value() == NewService(hasDisk, replicas)
    {
      this.hasDisk := hasDisk;
      memoryPct, cpuPct, diskPct := BASELINE_MEMORY_PCT, BASELINE_CPU_PCT, BASELINE_DISK_PCT;
      errorRate, forcedDown, restartCount, activeFaults := BASELINE_ERROR_RATE, false, 0, [];
      this.replicas, config, versionHistory := replicas, BASELINE_CONFIG, BASELINE_VERSION_HISTORY;
    }

    function Status(): (status: Health)
      reads this
      ensures status == Value().Status()
    {
      if forcedDown || errorRate >= UNHEALTHY_ERROR_RATE then Unhealthy
      else
        var worst := Max(memoryPct, Max(cpuPct, if hasDisk then diskPct else 0.0));
        if worst >= UNHEALTHY_THRESHOLD then Unhealthy
        else if DEGRADED_THRESHOLD <= worst || DEGRADED_ERROR_RATE <= errorRate then Degraded
        else Healthy
    }

    method ApplyFault(fault: FaultType, rate: FaultRate) returns (ok: bool)
      modifies this
      ensures ok <==> Request(old(Value()), InjectFault(fault, rate)).Some?
      ensures Value() == After(old(Value()), InjectFault(fault, rate))
    {
      match fault {
        case MemoryLeak => memoryPct := Magnitude(rate);
        case CpuSpike => cpuPct := Magnitude(rate);
        case HighErrorRate => errorRate := ErrorMagnitude(rate);
        case ServiceDown => forcedDown := true; errorRate := 1.0;
        case DiskFull =>
          if !hasDisk {
            return false;
          }
          diskPct := Magnitude(rate);
      }
      if fault !in activeFaults {
        activeFaults := activeFaults + [fault];
      }
      return true;
    }

    method Restart()
      modifies this
      ensures Value() == old(Value()).Restarted()
    {
      restartCount := restartCount + 1;
      ClearTransient();
    }

    method ClearTransient()
      modifies this
      ensures Value() == old(Value()).Cleared()
    {
      memoryPct, cpuPct, errorRate := BASELINE_MEMORY_PCT, BASELINE_CPU_PCT, BASELINE_ERROR_RATE;
      forcedDown := false;
      activeFaults := Filter(activeFaults, DiskFull, true);
    }

    method CleanDisk() returns (ok: bool)
      modifies this
      ensures ok <==> hasDisk
      ensures Value() == After(old(Value()), Op.CleanDisk)
    {
      if !hasDisk {
        return false;
      }
      diskPct := BASELINE_DISK_PCT;
      activeFaults := Filter(activeFaults, DiskFull, false);
      return true;
    }

    method Scale(n: int) returns (previous: int)
      modifies this
      ensures previous == old(Value()).replicas
      ensures Value() == old(Value()).Scaled(n)
    {
      previous := replicas;
      replicas := n;
    }

    method SetConfig(key: string, value: string) returns (previous: Option<string>)
      modifies this
      ensures previous == if key in old(Value()).config then Some(old(Value()).config[key]) else None
      ensures Value() == old(Value()).Configured(key, value)
    {
      previous := if key in config then Some(config[key]) else None;
      config := config[key := value];
    }

    method Rollback() returns (popped: Option<string>)
      modifies this
      ensures popped == if old(Value()).RolledBack().Some? then Some(old(Value()).Version()) else None
      ensures Value() == After(old(Value()), Op.Rollback)
    {
      if |versionHistory| < 2 {
        return None;
      }
      popped := Some(versionHistory[|versionHistory| - 1]);
      versionHistory := versionHistory[..|versionHistory| - 1];
      ClearTransient();
    }

    method Deploy(version: string) returns (previous: string)
      modifies this
      ensures previous == old(Value()).Version()
      ensures Value() == old(Value()).Deployed(version)
    {
      previous := versionHistory[|versionHistory| - 1];
      if version != previous {
        versionHistory := versionHistory + [version];
      }
    }

    method Reset()
      modifies this
      ensures Value() == old(Value()).Reset()
    {
      memoryPct, cpuPct, diskPct := BASELINE_MEMORY_PCT, BASELINE_CPU_PCT, BASELINE_DISK_PCT;
      errorRate, forcedDown, restartCount, activeFaults := BASELINE_ERROR_RATE, false, 0, [];
      replicas, config, versionHistory := BASELINE_REPLICAS, BASELINE_CONFIG, BASELINE_VERSION_HISTORY;
    }
  }
}
