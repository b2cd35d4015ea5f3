/** The evaluation harness that runs one scenario, approves every suspension and reads its
    summary off the audit log (src/eval/runner.py). */
module Runner {
  import opened Options
  import opened MockService
  import opened Records
  import opened Tools
  import opened Effects
  import opened ToolContexts
  import opened Observations
  import opened Workflow
  import opened Durable
  import opened AuditStores
  import opened AuditLog
  import opened Termination
  import opened Evidence
  import opened Engine
  import opened LogDerived

  // ---- Changing the sandbox from outside. ----

  datatype SandboxChange =
    | ResetService(service: string)
    | InjectInto(service: string, fault: FaultType, rate: FaultRate)
    | RollBackService(service: string)
    | DeleteKind(kind: string)

  function OpOf(c: SandboxChange): Op
    requires !c.DeleteKind?
  {
    match c
    case ResetService(_) => ResetAll
    case InjectInto(_, fault, rate) => InjectFault(fault, rate)
    case RollBackService(_) => Op.Rollback
  }

  /** `_apply_staleness_change` and `FaultInjector.inject`; `None` where they raise. */
  function ChangedWorld(w: World, c: SandboxChange): Option<World> {
    if c.DeleteKind? then
      Some(w.(table := Delete(w.table, IdsIn(ByKind(w.table, Some(c.kind), NO_LIMIT)))))
    else if c.service !in w.services then None
    else match Request(w.services[c.service], OpOf(c))
      case None => None
      case Some(after) => Some(w.(services := w.services[c.service := after]))
  }

  /** What each change does to the sandbox, or that it is refused. */
  lemma ChangeMeans(w: World, c: SandboxChange)
    ensures var v := ChangedWorld(w, c);
      match c
      case ResetService(x) => ChangedIn(w, x, v, true) && (v.Some? ==>
        v.value.services[x] == NewService(w.services[x].hasDisk, 1))
      case InjectInto(x, fault, rate) => ChangedIn(w, x, v, fault != DiskFull || HasTheDisk(w, x)) && (v.Some? ==>
        Some(v.value.services[x]) == w.services[x].Faulted(fault, rate))
      case RollBackService(x) => ChangedIn(w, x, v, x in w.services && |w.services[x].versions| >= 2) && (v.Some? ==>
        var s, t := w.services[x], v.value.services[x];
        && t.versions == s.versions[..|s.versions| - 1] && Quiesced(s, t) && t.restarts == s.restarts
        && t.replicas == s.replicas && t.config == s.config)
      case DeleteKind(kind) => v.Some? && exists ids :: KindGone(w, v.value, kind, ids)
  {
    if c.DeleteKind? {
      TakenByKind(w.table, c.kind);
      assert KindGone(w, ChangedWorld(w, c).value, c.kind, IdsIn(ByKind(w.table, Some(c.kind), NO_LIMIT)));
    } else if c.service in w.services {
      RequestMeans(w.services[c.service], OpOf(c));
    }
  }

  predicate HasTheDisk(w: World, x: string) { x in w.services && w.services[x].hasDisk }

  /** The change goes through exactly if its service is there and it is `possible`, and touches no other service. */
  ghost predicate ChangedIn(w: World, x: string, v: Option<World>, possible: bool) {
    && (v.Some? <==> x in w.services && possible)
    && (v.Some? ==> OnlyService(w, v.value, x))
  }

  /** Of the rows exactly those with `ids` went: the first million of the kind. */
  ghost predicate KindGone(w: World, v: World, kind: string, ids: seq<int>) {
    && v.services == w.services && v.table.nextId == w.table.nextId && Taken(w.table, kind, None, ids)
    && (forall i :: i in v.table.rows <==> i in w.table.rows && i !in ids)
    && (forall i | i in v.table.rows :: v.table.rows[i] == w.table.rows[i])
  }

  function ChangedByAll(w: World, cs: seq<SandboxChange>): Option<World> {
    if cs == [] then Some(w)
    else match ChangedByAll(w, cs[..|cs| - 1])
      case None => None
      case Some(v) => ChangedWorld(v, cs[|cs| - 1])
  }

  method ApplyChange(ctx: ToolContext, c: SandboxChange) returns (ok: bool)
    requires ctx.Valid()
    modifies ctx.records, ctx.Services()
    ensures ok ==> ChangedWorld(old(ctx.TheWorld()), c) == Some(ctx.TheWorld())
    ensures !ok ==> ChangedWorld(old(ctx.TheWorld()), c) == None && ctx.TheWorld() == old(ctx.TheWorld())
  {
    if c.DeleteKind? {
      var rows := ctx.records.GetByKind(Some(c.kind), NO_LIMIT);
      ctx.records.DeleteAll(IdsIn(rows));
      assert ctx.TheWorld().services == old(ctx.TheWorld()).services;
      return true;
    }
    ok := PostChange(ctx, c);
  }

  method PostChange(ctx: ToolContext, c: SandboxChange) returns (ok: bool)
    requires ctx.Valid() && !c.DeleteKind?
    modifies ctx.Services()
    ensures ok ==> ChangedWorld(old(ctx.TheWorld()), c) == Some(ctx.TheWorld())
    ensures !ok ==> ChangedWorld(old(ctx.TheWorld()), c) == None && ctx.TheWorld() == old(ctx.TheWorld())
  {
    if c.service !in ctx.clients {
      return false;
    }
    var service := ctx.clients[c.service];
    assert service in ctx.Services();
    ghost var before := service.Value();
    assert before == old(ctx.TheWorld()).services[c.service];
    match c {
      case ResetService(_) =>
        service.Reset();
        ok := true;
      case InjectInto(_, fault, rate) => ok := service.ApplyFault(fault, rate);
      case RollBackService(_) =>
        var popped := service.Rollback();
        ok := popped.Some?;
    }
    ctx.OnlyTargetChanged(c.service);
    assert service.Value() == After(before, OpOf(c));
    assert old(ctx.TheWorld()).services[c.service := service.Value()] == ctx.TheWorld().services;
  }

  // ---- What the loop keeps track of. ----

  /** Some revalidation of the run found drift. */
  ghost predicate DriftSeen(h: seq<Fact>) {
    exists i :: 0 <= i < |h| && h[i].Committed? && h[i].node == Revalidate && h[i].after.drift == Some(true)
  }

  /** `drift_detected`: nothing before the first resume or without revalidation, else whether drift was ever found. */
  ghost function DriftReport(revalidating: bool, h: seq<Fact>, resumes: nat): Option<bool> {
    if resumes == 0 || !revalidating then None else Some(DriftSeen(h))
  }

  /** Every decision the harness submits is a plain approval, and its clock does not run backwards. */
  ghost predicate Approves(answers: Answers) {
    && (forall i: nat :: PlainApproval(answers, i))
    && (forall i: nat, j: nat :: i <= j ==> NotAfter(answers, i, j))
  }

  predicate PlainApproval(answers: Answers, i: nat) { answers(i).0.decision == Approved && answers(i).0.edited.None? }

  predicate NotAfter(answers: Answers, i: nat, j: nat) { answers(i).1 <= answers(j).1 }

  ghost predicate Clocked(log: seq<LogRecord>, now: int) {
    ClockForward(log) && forall i :: 0 <= i < |log| ==> log[i].timestamp <= now
  }

  /** `t` is a crash-free run of a new thread, with what the harness knows about it after `resumes` approvals. */
  ghost predicate Tracked(
    revalidating: bool, runId: string, start: Sys, events: seq<Event>, t: Sys, now: int, resumes: nat,
    drift: Option<bool>)
  {
    && Fresh(start, runId) && CrashFree(events) && t == Run(revalidating, start, events)
    && Clocked(t.log, now)
    && CommitsOf(t.history, AwaitApproval) == resumes
    && drift == DriftReport(revalidating, t.history, resumes)
    && (resumes == 0 ==> !DriftSeen(t.history))
  }

  lemma NodeRunsCrashFree(answers: Answers, from: nat, k: nat)
    ensures CrashFree(NodeRuns(answers, from, k))
  {
  }

  lemma {:induction false} ClockOn(revalidating: bool, s: Sys, answers: Answers, from: nat, k: nat)
    requires Approves(answers) && Clocked(s.log, answers(from).1)
    ensures Clocked(Run(revalidating, s, NodeRuns(answers, from, k)).log, answers(from + k).1)
  {
    if k > 0 {
      ClockOn(revalidating, s, answers, from, k - 1);
      var front, e := NodeRuns(answers, from, k - 1), NodeRunAt(answers, from + k - 1);
      assert NotAfter(answers, from + k - 1, from + k);
      var m := Run(revalidating, s, front);
      assert Clocked(m.log, e.timestamp);
      ClockNext(revalidating, m, e, answers(from + k).1);
      RunSnoc(revalidating, s, front, e);
      assert Run(revalidating, s, NodeRuns(answers, from, k)) == Step(revalidating, m, e);
    }
  }

  lemma ClockNext(revalidating: bool, s: Sys, e: Event, later: int)
    requires e.NodeRun? && Clocked(s.log, e.timestamp) && e.timestamp <= later
    ensures Clocked(Step(revalidating, s, e).log, later)
  {
    LogGrows(revalidating, s, e);
    ClockLater(Step(revalidating, s, e).log, e.timestamp, later);
  }

  lemma ClockLater(log: seq<LogRecord>, now: int, later: int)
    requires Clocked(log, now) && now <= later
    ensures Clocked(log, later)
  {
  }

  lemma LogGrows(revalidating: bool, s: Sys, e: Event)
    requires e.NodeRun? && Clocked(s.log, e.timestamp)
    ensures Clocked(Step(revalidating, s, e).log, e.timestamp)
  {
    if s.checkpoint.next != End {
      var body := RunBody(s.checkpoint, s.world, s.ledger, e.oracle);
      LogOfBody(revalidating, s, body, e.crash, e.timestamp);
      if body.Some? {
        ClockAppend(s.log, MakeRecord(e.timestamp, s.checkpoint.next, s.checkpoint.state, body.value.after));
      }
    }
  }

  lemma ClockAppend(log: seq<LogRecord>, r: LogRecord)
    requires Clocked(log, r.timestamp)
    ensures Clocked(log + [r], r.timestamp)
  {
  }

  lemma TrackStart(revalidating: bool, runId: string, start: Sys, now: int)
    requires Fresh(start, runId)
    ensures Tracked(revalidating, runId, start, [], start, now, 0, None)
  {
  }

  /** No approval is consumed between two rests. */
  lemma NoApprovalBetween(s: Sys, t: Sys)
    requires Stretch(s, t)
    ensures CommitsOf(t.history, AwaitApproval) == CommitsOf(s.history, AwaitApproval)
  {
    var g := t.history[|s.history|..];
    assert t.history == s.history + g;
    forall f | f in g
      ensures !(f.Committed? && f.node == AwaitApproval)
    {
      var i :| 0 <= i < |g| && g[i] == f;
      assert t.history[|s.history| + i] == f;
    }
    CallsDontCount(s.history, g, (f: Fact) => f.Committed? && f.node == AwaitApproval);
  }

  lemma TrackDrive(revalidating: bool, runId: string, start: Sys, answers: Answers, k: nat, t: Sys)
    requires Tracked(revalidating, runId, start, [], start, answers(0).1, 0, None) && Approves(answers)
    requires Reached(revalidating, start, answers, 0, k, t) && Stretch(start, t)
    ensures Tracked(revalidating, runId, start, NodeRuns(answers, 0, k), t, answers(k).1, 0, None)
  {
    NodeRunsCrashFree(answers, 0, k);
    ClockOn(revalidating, start, answers, 0, k);
    NoApprovalBetween(start, t);
    NoDriftInStretch(start, t);
  }

  lemma NoDriftInStretch(s: Sys, t: Sys)
    requires Stretch(s, t) && s.checkpoint.next != Revalidate
    ensures DriftSeen(t.history) <==> DriftSeen(s.history)
  {
    assert forall i :: 0 <= i < |s.history| ==> t.history[i] == s.history[i];
  }

  /** Others change the sandbox while the run sleeps. */
  lemma TrackChange(revalidating: bool, runId: string, start: Sys, events: seq<Event>, s: Sys, now: int, resumes: nat,
                    drift: Option<bool>, w: World) returns (e: Event)
    requires Tracked(revalidating, runId, start, events, s, now, resumes, drift)
    ensures e.Elsewhere?
    ensures Tracked(revalidating, runId, start, events + [e], s.(world := w), now, resumes, drift)
  {
    e := Elsewhere(w, map[]);
    assert map[] + s.ledger == s.ledger;
    RunSnoc(revalidating, start, events, e);
  }

  // ---- One approval. ----

  lemma {:induction false} LastDriftAt(h: seq<Fact>, i: nat)
    requires i < |h| && h[i].Committed? && h[i].node == Revalidate
    requires forall j | i < j < |h| :: !(h[j].Committed? && h[j].node == Revalidate)
    ensures LastDrift(h) == h[i].after.drift
    decreases |h|
  {
    if i < |h| - 1 {
      LastDriftAt(h[..|h| - 1], i);
    }
  }

  lemma EvidenceOf(revalidating: bool, runId: string, start: Sys, events: seq<Event>)
    requires Fresh(start, runId)
    ensures var t := Run(revalidating, start, events);
      && t.checkpoint.state.drift == LastDrift(t.history)
      && (!revalidating ==> t.checkpoint.state.drift.None?)
      && (forall i | 0 <= i < |t.history| && t.history[i].Committed? && t.history[i].node == Revalidate ::
            t.history[i].after.drift.Some?)
  {
    EvidenceIsSound(revalidating, runId, start, events);
    var t := Run(revalidating, start, events);
    forall i | 0 <= i < |t.history| && t.history[i].Committed? && t.history[i].node == Revalidate
      ensures t.history[i].after.drift.Some?
    {
      assert Sound(revalidating, t.history[i], t.history[..i]);
    }
  }

  /** The harness's accumulation over resumes. */
  function Accumulated(before: Option<bool>, seen: Option<bool>): Option<bool> {
    if seen.Some? then Some(before == Some(true) || seen.value) else before
  }

  /** The one revalidation of a resume decides whether drift was found in it. */
  lemma DriftOfResume(decided: Sys, t: Sys)
    requires Stretch(decided, t) && t.checkpoint.next != Revalidate && decided.checkpoint.next == Revalidate
    requires t.checkpoint.state.drift == LastDrift(t.history)
    ensures DriftSeen(t.history) <==> DriftSeen(decided.history) || t.checkpoint.state.drift == Some(true)
    ensures |decided.history| < |t.history|
    ensures var f := t.history[|decided.history|];
      f.Committed? && f.node == Revalidate && f.after.drift == t.checkpoint.state.drift
  {
    var n := |decided.history|;
    assert t.history != decided.history;
    assert forall i :: 0 <= i < n ==> t.history[i] == decided.history[i];
    LastDriftAt(t.history, n);
    if DriftSeen(decided.history) {
      var i :| 0 <= i < n && decided.history[i].Committed? && decided.history[i].node == Revalidate
               && decided.history[i].after.drift == Some(true);
      assert t.history[i] == decided.history[i];
    }
  }

  lemma DecisionCounts(revalidating: bool, s: Sys, o: Oracle, decided: Sys)
    requires Decides(revalidating, s, o, decided)
    ensures CommitsOf(decided.history, AwaitApproval) == CommitsOf(s.history, AwaitApproval) + 1
    ensures DriftSeen(decided.history) <==> DriftSeen(s.history)
  {
    var f := decided.history[|s.history|];
    assert decided.history == s.history + [f];
    CountsOfCommit(s.history, f);
    assert forall i :: 0 <= i < |s.history| ==> decided.history[i] == s.history[i];
  }

  lemma TrackResume(revalidating: bool, runId: string, start: Sys, events: seq<Event>, s: Sys, resumes: nat,
                    drift: Option<bool>, answers: Answers, from: nat, k: nat, decided: Sys, t: Sys, next: nat,
                    seen: Option<bool>)
    returns (all: seq<Event>)
    requires Approves(answers)
    requires Tracked(revalidating, runId, start, events, s, answers(from).1, resumes, drift)
    requires Reached(revalidating, s, answers, from, k, t)
    requires Decides(revalidating, s, answers(from).0, decided) && Stretch(decided, t) && AtRest(t.checkpoint.next)
    requires next == from + k && seen == Accumulated(drift, t.checkpoint.state.drift)
    ensures Tracked(revalidating, runId, start, all, t, answers(next).1, resumes + 1, seen)
    ensures t.checkpoint.next == AwaitApproval ==> t.checkpoint.state.cycles > s.checkpoint.state.cycles
  {
    assert Past(t.checkpoint, s.checkpoint.state.cycles);
    all := RunOn(revalidating, start, events, s, answers, from, k, t, next);
    DecisionCounts(revalidating, s, answers(from).0, decided);
    NoApprovalBetween(decided, t);
    assert PlainApproval(answers, from);
    ReportOn(revalidating, runId, start, all, s, resumes, drift, answers(from).0, decided, t, seen);
  }

  /** More node runs of a crash-free run, with the clock. */
  lemma RunOn(revalidating: bool, start: Sys, events: seq<Event>, s: Sys, answers: Answers, from: nat, k: nat,
      t: Sys, next: nat)
    returns (all: seq<Event>)
    requires next == from + k
    requires Approves(answers) && CrashFree(events) && s == Run(revalidating, start, events)
    requires Clocked(s.log, answers(from).1) && Reached(revalidating, s, answers, from, k, t)
    ensures CrashFree(all) && t == Run(revalidating, start, all) && Clocked(t.log, answers(next).1)
  {
    all := events + NodeRuns(answers, from, k);
    RunConcat(revalidating, start, events, NodeRuns(answers, from, k));
    NodeRunsCrashFree(answers, from, k);
    ClockOn(revalidating, s, answers, from, k);
  }

  lemma ReportOn(revalidating: bool, runId: string, start: Sys, events: seq<Event>, s: Sys, resumes: nat,
                 drift: Option<bool>, o: Oracle, decided: Sys, t: Sys, seen: Option<bool>)
    requires Fresh(start, runId) && t == Run(revalidating, start, events)
    requires drift == DriftReport(revalidating, s.history, resumes) && (resumes == 0 ==> !DriftSeen(s.history))
    requires Decides(revalidating, s, o, decided) && o.decision == Approved
    requires Stretch(decided, t) && AtRest(t.checkpoint.next)
    requires seen == Accumulated(drift, t.checkpoint.state.drift)
    ensures seen == DriftReport(revalidating, t.history, resumes + 1)
  {
    EvidenceOf(revalidating, runId, start, events);
    DecisionCounts(revalidating, s, o, decided);
    if revalidating {
      DriftOfResume(decided, t);
    }
  }

  // ---- The harness. ----

  datatype RunRecord = RunRecord(
    runId: string,
    scenarioId: string,
    finalState: Option<Status>,
    proposed: seq<Option<string>>,
    tierLlm: Option<Tier>,
    tierFinal: Option<Tier>,
    floorApplied: bool,
    approvalWait: Option<real>,
    drift: Option<bool>,
    stalenessApplied: bool,
    executed: seq<string>,
    verified: Option<bool>,
    rollbackInvoked: bool,
    replanCycles: int,
    auditRecords: seq<LogRecord>)

  /** The list comprehensions over the audit records, as loops. */
  method Proposed(log: seq<LogRecord>) returns (actions: seq<Option<string>>)
    ensures actions == ProposedInLog(log)
  {
    actions := [];
    for k := 0 to |log|
      invariant actions == ProposedInLog(log[..k])
    {
      assert log[..k + 1] == log[..k] + [log[k]];
      LogAppend(log[..k], log[k]);
      if log[k].to == Some(ACTION_PROPOSED) {
        actions := actions + [log[k].action];
      }
    }
    assert log[..|log|] == log;
  }

  method Executed(log: seq<LogRecord>) returns (actions: seq<string>)
    ensures actions == ExecutedInLog(log)
  {
    actions := [];
    for k := 0 to |log|
      invariant actions == ExecutedInLog(log[..k])
    {
      assert log[..k + 1] == log[..k] + [log[k]];
      LogAppend(log[..k], log[k]);
      if log[k].to == Some(VERIFYING) && log[k].action.Some? && log[k].action.value != "" {
        actions := actions + [log[k].action.value];
      }
    }
    assert log[..|log|] == log;
  }

  function Times(n: nat, wait: real): real { n as real * wait }

  lemma OneMoreTime(n: nat, wait: real)
    ensures Times(n + 1, wait) == Times(n, wait) + wait
  {
    var x := n as real;
    assert (n + 1) as real == x + 1.0;
    assert (x + 1.0) * wait == x * wait + wait;
  }

  /** The record of a run that ended in `t` after `resumes` approvals of `wait` seconds each: every field
      as the harness reads it off the final channels and the log. */
  ghost predicate Reports(revalidating: bool, record: RunRecord, t: Sys, resumes: nat, wait: real) {
    var s := t.checkpoint.state;
    && t.checkpoint.next == End && resumes == CommitsOf(t.history, AwaitApproval)
    && record.runId == s.runId
    && record.finalState == (if s.finalState.Some? then s.finalState else s.status)
    && record.proposed == ProposedInLog(t.log)
    && record.executed == ExecutedInLog(t.log)
    && (record.rollbackInvoked <==> RollbackInLog(t.log))
    && record.approvalWait == (if resumes == 0 then None else Some(Times(resumes, wait)))
    && record.drift == DriftReport(revalidating, t.history, resumes)
    && record.tierLlm == s.llmTier && record.tierFinal == s.tier && record.floorApplied == s.floorApplied
    && record.verified == s.verified && record.replanCycles == s.cycles
    && record.auditRecords == t.log
  }

  /** `record` is what the harness returns for the crash-free run `events` of a new thread. */
  ghost predicate MadeBy(record: RunRecord, revalidating: bool, runId: string, start: Sys, events: seq<Event>,
                         resumes: nat, wait: real)
  {
    && Fresh(start, runId) && CrashFree(events)
    && ClockForward(Run(revalidating, start, events).log)
    && Reports(revalidating, record, Run(revalidating, start, events), resumes, wait)
  }

  /** The last classification, the last verdict, the replans, and the approvals with the time they took. */
  ghost predicate LastsAndCounts(record: RunRecord, h: seq<Fact>, resumes: nat, wait: real) {
    && (record.tierLlm, record.tierFinal, record.floorApplied) == LastTiers(h)
    && record.verified == LastVerdict(h) && record.replanCycles == CommitsOf(h, Replan)
    && resumes == CommitsOf(h, AwaitApproval)
    && record.approvalWait == (if resumes == 0 then None else Some(resumes as real * wait))
  }

  /** The record tells the run. Its lists and its rollback flag are what happened, its drift flag is set exactly
      if some revalidation found drift, its tiers, floor and verdict are those of the last classification and the last
      verification, its cycles are the replans, its wait is the approvals times the wait for one, its log is a complete
      chain that replays to the status trace, the run ended COMPLETED or ESCALATED, and a final tier of medium or high
      means that it waited. */
  lemma RecordTellsTheRun(record: RunRecord, revalidating: bool, runId: string, start: Sys, events: seq<Event>,
                          resumes: nat, wait: real)
    requires MadeBy(record, revalidating, runId, start, events, resumes, wait)
    ensures var t := Run(revalidating, start, events);
      && record.proposed == ProposedInRun(t.history) && (forall a | a in record.proposed :: a.Some?)
      && record.executed == ExecutedInRun(t.history)
      && (record.rollbackInvoked <==> RollbackInRun(t.history))
      && record.drift == (if revalidating && resumes > 0 then Some(DriftSeen(t.history)) else None)
      && LastsAndCounts(record, t.history, resumes, wait)
      && IsCompleteChain(record.auditRecords) && ReplayRun(record.auditRecords) == Statuses(t.history)
      && (record.finalState == Some(COMPLETED) || record.finalState == Some(ESCALATED))
      && (NeedsApproval(record.tierFinal) ==> record.approvalWait.Some?)
  {
    var t := Run(revalidating, start, events);
    LogTellsTheRun(revalidating, runId, start, events);
    LogAheadOfCheckpoint(revalidating, runId, start, events);
    NoneUncommitted(t.history);
    TierWaits(revalidating, runId, start, events);
    EndIsFinal(revalidating, runId, start, events);
    ChannelsTell(record, revalidating, runId, start, events, resumes, wait);
  }

  lemma ChannelsTell(record: RunRecord, revalidating: bool, runId: string, start: Sys, events: seq<Event>, resumes: nat,
                     wait: real)
    requires MadeBy(record, revalidating, runId, start, events, resumes, wait)
    ensures LastsAndCounts(record, Run(revalidating, start, events).history, resumes, wait)
  {
    EvidenceIsSound(revalidating, runId, start, events);
    RunsAreShort(revalidating, runId, start, events);
  }

  /** At the end both `status` and `final_state` hold the final state. */
  ghost predicate FinalSet(s: Sys) {
    s.checkpoint.next == End ==>
      && s.checkpoint.state.finalState == s.checkpoint.state.status
      && (s.checkpoint.state.status == Some(COMPLETED) || s.checkpoint.state.status == Some(ESCALATED))
  }

  lemma StepKeepsFinal(revalidating: bool, s: Sys, e: Event)
    requires FinalSet(s)
    ensures FinalSet(Step(revalidating, s, e))
  {
    var reply := CheckpointStep(revalidating, s, e);
    if Update(s.checkpoint.next, s.checkpoint.state, reply).Some? {
      NodeRunStays(revalidating, s.checkpoint.next, s.checkpoint.state, reply);
    }
  }

  lemma {:induction false} EndIsFinal(revalidating: bool, runId: string, s: Sys, events: seq<Event>)
    requires Fresh(s, runId)
    ensures FinalSet(Run(revalidating, s, events))
  {
    if events != [] {
      var n := |events| - 1;
      EndIsFinal(revalidating, runId, s, events[..n]);
      StepKeepsFinal(revalidating, Run(revalidating, s, events[..n]), events[n]);
    }
  }

  lemma {:induction false} NoneUncommitted(h: seq<Fact>)
    requires forall f | f in h :: f.Died? ==> !f.logged
    ensures UncommittedDeaths(h) == 0
  {
    if h != [] {
      assert h[|h| - 1] in h;
      NoneUncommitted(h[..|h| - 1]);
    }
  }

  /** A suspended run still has cycles left, so the approval loop comes to an end. */
  lemma SuspendedHasCyclesLeft(revalidating: bool, runId: string, start: Sys, events: seq<Event>, t: Sys, now: int,
                               resumes: nat, drift: Option<bool>)
    requires Tracked(revalidating, runId, start, events, t, now, resumes, drift) && t.checkpoint.next == AwaitApproval
    ensures t.checkpoint.state.cycles < MAX_REPLAN_CYCLES
  {
    RunsAreShort(revalidating, runId, start, events);
  }

  /** After the crash-free `events` the next node raises on the answer of `o`. */
  ghost predicate HaltedOn(revalidating: bool, start: Sys, events: seq<Event>, o: Oracle) {
    CrashFree(events) && Raises(Run(revalidating, start, events), o)
  }

  ghost predicate Halted(revalidating: bool, start: Sys, events: seq<Event>, answers: Answers) {
    exists n: nat :: HaltedOn(revalidating, start, events, answers(n).0)
  }

  lemma HaltedAt(revalidating: bool, start: Sys, events: seq<Event>, s: Sys, answers: Answers, from: nat, k: nat)
    returns (more: seq<Event>)
    requires s == Run(revalidating, start, events) && CrashFree(events)
    requires RaisedLast(revalidating, s, answers, from, k)
    ensures HaltedOn(revalidating, start, more, answers(from + k - 1).0)
  {
    more := events + NodeRuns(answers, from, k - 1);
    NodeRunsCrashFree(answers, from, k - 1);
    RunConcat(revalidating, start, events, NodeRuns(answers, from, k - 1));
  }

  /** The run at the end of a call: halted where a node raises, or at rest and tracked. */
  ghost predicate Going(revalidating: bool, runId: string, start: Sys, events: seq<Event>, how: Invocation, t: Sys,
                        answers: Answers, next: nat, resumes: nat, drift: Option<bool>)
  {
    if how == Raised then next > 0 && HaltedOn(revalidating, start, events, answers(next - 1).0)
    else Rested(how, t.checkpoint) && Tracked(revalidating, runId, start, events, t, answers(next).1, resumes, drift)
  }

  /** What one resume makes of a tracked run. */
  lemma TrackTurn(revalidating: bool, runId: string, start: Sys, events: seq<Event>, s: Sys, resumes: nat,
                  drift: Option<bool>, answers: Answers, from: nat, k: nat, decided: Sys, how: Invocation, t: Sys,
                  next: nat, seen: Option<bool>)
    returns (all: seq<Event>)
    requires Approves(answers) && next == from + k
    requires Tracked(revalidating, runId, start, events, s, answers(from).1, resumes, drift)
    requires Reached(revalidating, s, answers, from, k, t)
    requires how == Raised <==> RaisedLast(revalidating, s, answers, from, k)
    requires how != Raised ==>
      && Rested(how, t.checkpoint)
      && Decides(revalidating, s, answers(from).0, decided) && Stretch(decided, t)
      && seen == Accumulated(drift, t.checkpoint.state.drift)
    ensures Going(revalidating, runId, start, all, how, t, answers, next, resumes + 1, seen)
    ensures how == Suspended ==> t.checkpoint.state.cycles > s.checkpoint.state.cycles
  {
    if how == Raised {
      all := HaltedAt(revalidating, start, events, s, answers, from, k);
    } else {
      all := TrackResume(revalidating, runId, start, events, s, resumes, drift, answers, from, k, decided, t,
                         next, seen);
      assert Tracked(revalidating, runId, start, all, t, answers(next).1, resumes + 1, seen);
    }
  }

  /** One turn of the approval loop. */
  method ApproveOnce(thread: GraphThread, answers: Answers, from: nat, drift: Option<bool>,
                     ghost start: Sys, ghost events: seq<Event>, ghost resumes: nat)
    returns (how: Invocation, next: nat, seen: Option<bool>, ghost more: seq<Event>)
    requires thread.Valid() && thread.checkpoint.next == AwaitApproval && Approves(answers)
    requires Tracked(thread.revalidating, thread.runId, start, events, thread.TheSys(), answers(from).1, resumes, drift)
    modifies thread, thread.audit, thread.context.store, thread.context.records, thread.context.Services()
    ensures thread.Valid()
    ensures Going(thread.revalidating, thread.runId, start, more, how, thread.TheSys(), answers, next, resumes + 1,
                  seen)
    ensures how == Suspended ==> thread.checkpoint.state.cycles > old(thread.checkpoint.state.cycles)
  {
    ghost var s := thread.TheSys();
    var k;
    ghost var decided;
    how, k, decided := thread.Resume(answers, from);
    next, seen := from + k, drift;
    if how != Raised {
      seen := Accumulate(drift, thread.checkpoint.state.drift);
    }
    more := TrackTurn(thread.revalidating, thread.runId, start, events, s, resumes, drift, answers, from, k, decided,
                      how, thread.TheSys(), next, seen);
  }

  function MoreWait(approvalWait: Option<real>, wait: real): Option<real> {
    Some((if approvalWait.Some? then approvalWait.value else 0.0) + wait)
  }

  /** `approval_wait_seconds` after some approvals. */
  function Waited(resumes: nat, wait: real): Option<real> {
    if resumes == 0 then None else MoreWait(Waited(resumes - 1, wait), wait)
  }

  /** Waits, approves and accumulates. */
  method ApproveTurn(thread: GraphThread, answers: Answers, from: nat, wait: real, waited: Option<real>,
      drift: Option<bool>, ghost start: Sys, ghost events: seq<Event>, ghost resumes: nat)
    returns (how: Invocation, next: nat, approvalWait: Option<real>, seen: Option<bool>, ghost more: seq<Event>)
    requires thread.Valid() && Approves(answers)
    requires Going(thread.revalidating, thread.runId, start, events, Suspended, thread.TheSys(), answers, from, resumes,
                   drift)
    requires waited == Waited(resumes, wait)
    modifies thread, thread.audit, thread.context.store, thread.context.records, thread.context.Services()
    ensures thread.Valid()
    ensures Going(thread.revalidating, thread.runId, start, more, how, thread.TheSys(), answers, next, resumes + 1,
                  seen)
    ensures approvalWait == Waited(resumes + 1, wait)
    ensures how == Suspended ==> CyclesToGo(thread.checkpoint) < old(CyclesToGo(thread.checkpoint))
  {
    approvalWait := MoreWait(waited, wait);
    Sleeping(thread.revalidating, thread.runId, start, events, thread.TheSys(), answers, from, resumes, drift);
    SuspendedHasCyclesLeft(thread.revalidating, thread.runId, start, events, thread.TheSys(), answers(from).1,
                           resumes, drift);
    how, next, seen, more := ApproveOnce(thread, answers, from, drift, start, events, resumes);
  }

  lemma Sleeping(revalidating: bool, runId: string, start: Sys, events: seq<Event>, t: Sys, answers: Answers,
                 next: nat, resumes: nat, drift: Option<bool>)
    requires Going(revalidating, runId, start, events, Suspended, t, answers, next, resumes, drift)
    ensures t.checkpoint.next == AwaitApproval
    ensures Tracked(revalidating, runId, start, events, t, answers(next).1, resumes, drift)
  {
  }

  function CyclesToGo(c: Checkpoint): nat {
    if c.state.cycles < MAX_REPLAN_CYCLES then MAX_REPLAN_CYCLES - c.state.cycles else 0
  }

  /** `drift_detected_overall`: a later clean revalidation does not erase an earlier drift. */
  method Accumulate(drift: Option<bool>, inResult: Option<bool>) returns (seen: Option<bool>)
    ensures seen == Accumulated(drift, inResult)
  {
    seen := drift;
    if inResult.Some? {
      seen := Some(drift == Some(true) || inResult.value);
    }
  }

  lemma {:induction false} WaitedIs(resumes: nat, wait: real)
    ensures Waited(resumes, wait) == if resumes == 0 then None else Some(Times(resumes, wait))
  {
    if resumes > 0 {
      WaitedIs(resumes - 1, wait);
      OneMoreTime(resumes - 1, wait);
      assert Times(0, wait) == 0.0;
    }
  }

  /** The loop that approves until the run no longer suspends. */
  method ApproveLoop(thread: GraphThread, answers: Answers, from: nat, wait: real, suspended: bool,
                     ghost start: Sys, ghost events: seq<Event>)
    returns (how: Invocation, next: nat, approvalWait: Option<real>, drift: Option<bool>, ghost all: seq<Event>,
        ghost resumes: nat)
    requires thread.Valid() && Approves(answers)
    requires Going(thread.revalidating, thread.runId, start, events, if suspended then Suspended else Finished,
                   thread.TheSys(), answers, from, 0, None)
    modifies thread, thread.audit, thread.context.store, thread.context.records, thread.context.Services()
    ensures thread.Valid() && how != Suspended
    ensures Going(thread.revalidating, thread.runId, start, all, how, thread.TheSys(), answers, next, resumes, drift)
    ensures approvalWait == Waited(resumes, wait)
  {
    approvalWait, drift, all, resumes := None, None, events, 0;
    next, how := from, if suspended then Suspended else Finished;
    ghost var going := true;
    while how == Suspended
      invariant thread.Valid()
      invariant going && going == Going(thread.revalidating, thread.runId, start, all, how, thread.TheSys(), answers,
                                        next, resumes, drift)
      invariant approvalWait == Waited(resumes, wait)
      decreases how == Suspended, CyclesToGo(thread.checkpoint)
    {
      how, next, approvalWait, drift, all :=
        ApproveTurn(thread, answers, next, wait, approvalWait, drift, start, all, resumes);
      resumes := resumes + 1;
      going := Going(thread.revalidating, thread.runId, start, all, how, thread.TheSys(), answers, next, resumes,
                     drift);
    }
  }

  /** Approves a suspended run until it ends or raises. */
  method ApproveAll(thread: GraphThread, answers: Answers, from: nat, wait: real, suspended: bool,
                    ghost start: Sys, ghost events: seq<Event>)
    returns (raised: bool, approvalWait: Option<real>, drift: Option<bool>, ghost all: seq<Event>,
        ghost resumes: nat, ghost now: int)
    requires thread.Valid() && Approves(answers)
    requires Rested(if suspended then Suspended else Finished, thread.checkpoint)
    requires Tracked(thread.revalidating, thread.runId, start, events, thread.TheSys(), answers(from).1, 0, None)
    modifies thread, thread.audit, thread.context.store, thread.context.records, thread.context.Services()
    ensures thread.Valid()
    ensures raised ==> Halted(thread.revalidating, start, all, answers)
    ensures !raised ==>
      && thread.checkpoint.next == End
      && Tracked(thread.revalidating, thread.runId, start, all, thread.TheSys(), now, resumes, drift)
      && approvalWait == Waited(resumes, wait)
  {
    var how, next;
    how, next, approvalWait, drift, all, resumes :=
      ApproveLoop(thread, answers, from, wait, suspended, start, events);
    raised, now := how == Raised, answers(next).1;
    Went(thread.revalidating, thread.runId, start, all, how, thread.TheSys(), answers, next, resumes, drift);
  }

  lemma Went(revalidating: bool, runId: string, start: Sys, events: seq<Event>, how: Invocation, t: Sys,
             answers: Answers, next: nat, resumes: nat, drift: Option<bool>)
    requires Going(revalidating, runId, start, events, how, t, answers, next, resumes, drift) && how != Suspended
    ensures how == Raised ==> Halted(revalidating, start, events, answers)
    ensures how != Raised ==>
      t.checkpoint.next == End && Tracked(revalidating, runId, start, events, t, answers(next).1, resumes, drift)
  {
  }

  lemma {:induction false} RefusedOnce(w: World, cs: seq<SandboxChange>, k: nat)
    requires k < |cs| && ChangedByAll(w, cs[..k + 1]).None?
    ensures ChangedByAll(w, cs).None?
    decreases |cs|
  {
    var n := |cs| - 1;
    if k < n {
      assert cs[..n][..k + 1] == cs[..k + 1];
      RefusedOnce(w, cs[..n], k);
    } else {
      assert cs[..k + 1] == cs;
    }
  }

  /** The changes made while the first suspension lasts; `None` of the run is told by them. */
  method Disturb(thread: GraphThread, changes: seq<SandboxChange>, ghost start: Sys, ghost events: seq<Event>,
      ghost now: int)
    returns (ok: bool, ghost more: seq<Event>)
    requires thread.Valid()
    requires Tracked(thread.revalidating, thread.runId, start, events, thread.TheSys(), now, 0, None)
    modifies thread.context.records, thread.context.Services()
    ensures thread.Valid() && thread.checkpoint == old(thread.checkpoint)
    ensures ok ==> Tracked(thread.revalidating, thread.runId, start, more, thread.TheSys(), now, 0, None)
    ensures ChangedByAll(old(thread.context.TheWorld()), changes) ==
      if ok then Some(thread.context.TheWorld()) else None
    ensures !ok ==> more == events
  {
    ghost var s := thread.TheSys();
    for k := 0 to |changes|
      invariant thread.Valid() && thread.TheSys() == s.(world := thread.context.TheWorld())
      invariant ChangedByAll(s.world, changes[..k]) == Some(thread.context.TheWorld())
    {
      assert changes[..k + 1][..k] == changes[..k];
      ok := ApplyChange(thread.context, changes[k]);
      if !ok {
        RefusedOnce(s.world, changes, k);
        return false, events;
      }
    }
    assert changes[..|changes|] == changes;
    ghost var e := TrackChange(thread.revalidating, thread.runId, start, events, s, now, 0, None,
        thread.context.TheWorld());
    ok, more := true, events + [e];
  }

  /** The record of a finished run. */
  method Summarize(thread: GraphThread, scenarioId: string, approvalWait: Option<real>, drift: Option<bool>,
      applied: bool, wait: real, ghost start: Sys, ghost events: seq<Event>, ghost resumes: nat, ghost now: int)
    returns (record: RunRecord)
    requires thread.Valid() && thread.checkpoint.next == End
    requires Tracked(thread.revalidating, thread.runId, start, events, thread.TheSys(), now, resumes, drift)
    requires approvalWait == Waited(resumes, wait)
    ensures Reports(thread.revalidating, record, thread.TheSys(), resumes, wait)
    ensures record.runId == thread.runId && record.scenarioId == scenarioId && record.stalenessApplied == applied
  {
    var log := thread.audit.GetRun(thread.runId);
    var s := thread.checkpoint.state;
    var proposed := Proposed(log);
    var executed := Executed(log);
    record := RunRecord(
      thread.runId, scenarioId, if s.finalState.Some? then s.finalState else s.status,
      proposed, s.llmTier, s.tier, s.floorApplied, approvalWait, drift, applied, executed,
      s.verified, RollbackInLog(log), s.cycles, log);
    WaitedIs(resumes, wait);
  }

  /** A new thread with its own audit store over the sandbox, with the fault injected. */
  method NewRun(context: ToolContext, revalidating: bool, runId: string, fault: SandboxChange)
    returns (ok: bool, thread: GraphThread)
    requires context.Valid()
    modifies context.records, context.Services()
    ensures fresh(thread) && fresh(thread.audit) && thread.Valid()
    ensures thread.context == context && thread.runId == runId && thread.revalidating == revalidating
    ensures Fresh(thread.TheSys(), runId) && thread.TheSys().ledger == old(context.store.rows)
    ensures ChangedWorld(old(context.TheWorld()), fault) == if ok then Some(thread.TheSys().world) else None
  {
    ok := ApplyChange(context, fault);
    ghost var w := context.TheWorld();
    var audit := new InMemoryAuditStore();
    thread := new GraphThread(runId, revalidating, context, audit);
    assert context.TheWorld() == w;
  }

  /** From the fault injection to the first rest. */
  method Open(context: ToolContext, revalidating: bool, runId: string, fault: SandboxChange, answers: Answers)
    returns (thread: GraphThread, how: Invocation, k: nat, ghost start: Sys, ghost events: seq<Event>)
    requires context.Valid() && Approves(answers)
    modifies context.store, context.records, context.Services()
    ensures fresh(thread) && fresh(thread.audit) && thread.Valid()
    ensures thread.context == context && thread.runId == runId && thread.revalidating == revalidating
    ensures ChangedWorld(old(context.TheWorld()), fault).Some? ==>
      ChangedWorld(old(context.TheWorld()), fault) == Some(start.world) && start.ledger == old(context.store.rows)
    ensures how == Raised ==>
      || ChangedWorld(old(context.TheWorld()), fault).None?
      || (Fresh(start, runId) && Halted(revalidating, start, events, answers))
    ensures how != Raised ==>
      && ChangedWorld(old(context.TheWorld()), fault).Some? && Rested(how, thread.checkpoint)
      && Tracked(revalidating, runId, start, events, thread.TheSys(), answers(k).1, 0, None)
  {
    var ok;
    ok, thread := NewRun(context, revalidating, runId, fault);
    start, events := thread.TheSys(), [];
    if !ok {
      return thread, Raised, 0, start, events;
    }
    TrackStart(revalidating, runId, start, answers(0).1);
    how, k := thread.Drive(answers, 0);
    if how != Raised {
      events := NodeRuns(answers, 0, k);
      TrackDrive(revalidating, runId, start, answers, k, thread.TheSys());
    } else {
      events := HaltedAt(revalidating, start, [], start, answers, 0, k);
    }
  }

  /** Why there is no record of a run that came to rest: the sandbox refused one of the changes of a staleness
      scenario during the first suspension, or a node raised. */
  ghost predicate NoRecord(revalidating: bool, start: Sys, events: seq<Event>, staleness: Option<seq<SandboxChange>>,
                           answers: Answers)
  {
    || Halted(revalidating, start, events, answers)
    || (CrashFree(events) && Run(revalidating, start, events).checkpoint.next == AwaitApproval && staleness.Some?
        && ChangedByAll(Run(revalidating, start, events).world, staleness.value).None?)
  }

  /** From the first rest to the record. */
  method Close(thread: GraphThread, scenarioId: string, suspended: bool, staleness: Option<seq<SandboxChange>>,
      wait: real, answers: Answers, k: nat, ghost start: Sys, ghost events: seq<Event>)
    returns (record: Option<RunRecord>, ghost all: seq<Event>, ghost resumes: nat)
    requires thread.Valid() && Approves(answers)
    requires Rested(if suspended then Suspended else Finished, thread.checkpoint)
    requires Tracked(thread.revalidating, thread.runId, start, events, thread.TheSys(), answers(k).1, 0, None)
    modifies thread, thread.audit, thread.context.store, thread.context.records, thread.context.Services()
    ensures record.None? ==> NoRecord(thread.revalidating, start, all, staleness, answers)
    ensures record.Some? ==>
      && thread.TheSys() == Run(thread.revalidating, start, all)
      && MadeBy(record.value, thread.revalidating, thread.runId, start, all, resumes, wait)
      && record.value.runId == thread.runId && record.value.scenarioId == scenarioId
      && record.value.stalenessApplied == (suspended && staleness.Some?)
  {
    record, all, resumes := None, events, 0;
    var applied := suspended && staleness.Some?;
    if applied {
      var ok;
      ok, all := Disturb(thread, staleness.value, start, all, answers(k).1);
      if !ok {
        return;
      }
    }
    var raised, approvalWait, drift;
    ghost var now;
    raised, approvalWait, drift, all, resumes, now := ApproveAll(thread, answers, k, wait, suspended, start, all);
    if raised {
      return;
    }
    var r := Summarize(thread, scenarioId, approvalWait, drift, applied, wait, start, all, resumes, now);
    record := Some(r);
  }

  /** `run_scenario`: injects the fault, starts a new run, changes the sandbox during the first suspension of
      a staleness scenario, approves until the run ends, and reads the record off the audit log.
      Every field of the record is what the run `Run(start, events)` did. `None` when the sandbox refuses the
      fault or a change, or a node raises after `events`. */
  method RunScenario(context: ToolContext, revalidating: bool, runId: string, scenarioId: string, fault: SandboxChange,
                     staleness: Option<seq<SandboxChange>>, wait: real, answers: Answers)
    returns (record: Option<RunRecord>, ghost start: Sys, ghost events: seq<Event>, ghost resumes: nat)
    requires context.Valid() && Approves(answers)
    modifies context.store, context.records, context.Services()
    ensures record.None? ==>
      || ChangedWorld(old(context.TheWorld()), fault).None?
      || (Fresh(start, runId) && ChangedWorld(old(context.TheWorld()), fault) == Some(start.world)
          && NoRecord(revalidating, start, events, staleness, answers))
    ensures record.Some? ==>
      && MadeBy(record.value, revalidating, runId, start, events, resumes, wait)
      && ChangedWorld(old(context.TheWorld()), fault) == Some(start.world) && start.ledger == old(context.store.rows)
      && Run(revalidating, start, events).world == context.TheWorld()
      && record.value.runId == runId && record.value.scenarioId == scenarioId
  {
    var thread, how, k;
    thread, how, k, start, events := Open(context, revalidating, runId, fault, answers);
    record, resumes := None, 0;
    if how != Raised {
      record, events, resumes :=
        Close(thread, scenarioId, how == Suspended, staleness, wait, answers, k, start, events);
    }
  }
}
