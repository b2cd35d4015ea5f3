/** Reading a run back from its audit log (src/audit/replay.py), and how the log and the committed
    checkpoints agree under every crash pattern. */
module AuditLog {
  import opened Options
  import opened Tools
  import opened Workflow
  import opened Durable

  /** `sorted(records, key=timestamp)`, which is stable. */
  function Ordered(records: seq<LogRecord>): seq<LogRecord> {
    if records == [] then [] else Place(Ordered(records[..|records| - 1]), records[|records| - 1])
  }

  function Place(ordered: seq<LogRecord>, r: LogRecord): seq<LogRecord> {
    if ordered == [] || ordered[|ordered| - 1].timestamp <= r.timestamp then ordered + [r]
    else Place(ordered[..|ordered| - 1], r) + [ordered[|ordered| - 1]]
  }

  /** The `to_state` of every record that has one. */
  function Tos(records: seq<LogRecord>): seq<Status> {
    if records == [] then []
    else
      var last := records[|records| - 1].to;
      Tos(records[..|records| - 1]) + (if last.Some? then [last.value] else [])
  }

  function ReplayRun(records: seq<LogRecord>): seq<Status> { Tos(Ordered(records)) }

  predicate IsCompleteChain(records: seq<LogRecord>) {
    var ordered := Ordered(records);
    forall i :: 0 < i < |ordered| ==> ordered[i].from == ordered[i - 1].to
  }

  ghost predicate ClockForward(records: seq<LogRecord>) {
    forall i, j :: 0 <= i < j < |records| ==> records[i].timestamp <= records[j].timestamp
  }

  lemma {:induction false} OrderedIdentity(records: seq<LogRecord>)
    requires ClockForward(records)
    ensures Ordered(records) == records
  {
    if records != [] {
      var n := |records| - 1;
      OrderedIdentity(records[..n]);
      assert n > 0 ==> records[..n][n - 1].timestamp <= records[n].timestamp;
      assert records == records[..n] + [records[n]];
    }
  }

  /** The records of one timestamp, in their order. */
  function AtTime(records: seq<LogRecord>, now: int): seq<LogRecord> {
    if records == [] then []
    else
      var last := records[|records| - 1];
      AtTime(records[..|records| - 1], now) + (if last.timestamp == now then [last] else [])
  }

  lemma AtTimeAppend(records: seq<LogRecord>, r: LogRecord, now: int)
    ensures AtTime(records + [r], now) == AtTime(records, now) + (if r.timestamp == now then [r] else [])
  {
    assert (records + [r])[..|records|] == records;
  }

  /** Sorting only rearranges: every record is kept, timestamps come out in order, and the records of one
      timestamp stay in the order they had. */
  lemma {:induction false} OrderedSorts(records: seq<LogRecord>)
    ensures multiset(Ordered(records)) == multiset(records)
    ensures ClockForward(Ordered(records))
    ensures forall now :: AtTime(Ordered(records), now) == AtTime(records, now)
  {
    if records != [] {
      var n := |records| - 1;
      OrderedSorts(records[..n]);
      PlaceKeepsAll(Ordered(records[..n]), records[n]);
      PlaceSorts(Ordered(records[..n]), records[n]);
      assert records == records[..n] + [records[n]];
      forall now
        ensures AtTime(Ordered(records), now) == AtTime(records, now)
      {
        PlaceIsStable(Ordered(records[..n]), records[n], now);
      }
    }
  }

  /** A record goes behind all others of its timestamp. */
  lemma {:induction false} PlaceIsStable(ordered: seq<LogRecord>, r: LogRecord, now: int)
    ensures AtTime(Place(ordered, r), now) == AtTime(ordered, now) + (if r.timestamp == now then [r] else [])
  {
    if ordered == [] || ordered[|ordered| - 1].timestamp <= r.timestamp {
      AtTimeAppend(ordered, r, now);
    } else {
      var n := |ordered| - 1;
      PlaceIsStable(ordered[..n], r, now);
      AtTimeAppend(Place(ordered[..n], r), ordered[n], now);
    }
  }

  lemma {:induction false} PlaceKeepsAll(ordered: seq<LogRecord>, r: LogRecord)
    ensures multiset(Place(ordered, r)) == multiset(ordered) + multiset{r}
  {
    if ordered != [] && ordered[|ordered| - 1].timestamp > r.timestamp {
      PlaceKeepsAll(ordered[..|ordered| - 1], r);
      assert ordered == ordered[..|ordered| - 1] + [ordered[|ordered| - 1]];
    }
  }

  ghost predicate NoneLater(records: seq<LogRecord>, now: int) {
    forall i :: 0 <= i < |records| ==> records[i].timestamp <= now
  }

  lemma {:induction false} PlaceSorts(ordered: seq<LogRecord>, r: LogRecord)
    requires ClockForward(ordered)
    ensures ClockForward(Place(ordered, r))
    ensures forall now :: NoneLater(ordered, now) && r.timestamp <= now ==> NoneLater(Place(ordered, r), now)
  {
    if ordered != [] && ordered[|ordered| - 1].timestamp > r.timestamp {
      var n := |ordered| - 1;
      PlaceSorts(ordered[..n], r);
      assert NoneLater(ordered[..n], ordered[n].timestamp);
      forall now | NoneLater(ordered, now) && r.timestamp <= now
        ensures NoneLater(Place(ordered, r), now)
      {
        assert NoneLater(ordered[..n], now);
      }
    }
  }

  /** Places where a record does not continue from the one before it. */
  function Breaks(records: seq<LogRecord>): nat {
    if |records| < 2 then 0
    else
      var n := |records| - 1;
      Breaks(records[..n]) + (if records[n].from != records[n - 1].to then 1 else 0)
  }

  lemma {:induction false} NoBreaks(records: seq<LogRecord>)
    ensures Breaks(records) == 0 <==> forall i :: 0 < i < |records| ==> records[i].from == records[i - 1].to
  {
    if |records| >= 2 {
      NoBreaks(records[..|records| - 1]);
    }
  }

  /** A log is a complete chain exactly if, in the order of time, each record continues from the one before it. */
  lemma NoBreaksIsChain(records: seq<LogRecord>)
    ensures IsCompleteChain(records) <==> Breaks(Ordered(records)) == 0
    ensures var ordered := Ordered(records);
      Breaks(ordered) == 0 <==> forall i :: 0 < i < |ordered| ==> ordered[i].from == ordered[i - 1].to
  {
    NoBreaks(Ordered(records));
  }

  /** `a` is obtained from `b` by leaving elements out. */
  ghost predicate IsSubsequence(a: seq<Status>, b: seq<Status>) {
    if a == [] then true
    else if b == [] then false
    else
      || (a[|a| - 1] == b[|b| - 1] && IsSubsequence(a[..|a| - 1], b[..|b| - 1]))
      || IsSubsequence(a, b[..|b| - 1])
  }

  /** The statuses of the committed checkpoints, in order. */
  function Statuses(h: seq<Fact>): seq<Status> {
    if h == [] then []
    else
      var last := h[|h| - 1];
      Statuses(h[..|h| - 1]) + (if last.Committed? && last.after.status.Some? then [last.after.status.value] else [])
  }

  predicate DiedUncommitted(f: Fact) { f.Died? && f.logged && f.changed }

  function Deaths(h: seq<Fact>): nat { Count(h, (f: Fact) => f.Died?) }

  /** Deaths between the audit write and the commit, in a node that changes the status. */
  function UncommittedDeaths(h: seq<Fact>): nat { Count(h, (f: Fact) => DiedUncommitted(f)) }

  function Pending(s: Sys): nat {
    if s.log != [] && s.log[|s.log| - 1].to != s.checkpoint.state.status then 1 else 0
  }

  ghost predicate LogInv(s: Sys) {
    && IsSubsequence(Statuses(s.history), Tos(s.log))
    && Breaks(s.log) + Pending(s) == UncommittedDeaths(s.history)
    && ((forall f | f in s.history :: f.Died? ==> !f.logged) ==> Tos(s.log) == Statuses(s.history))
  }

  lemma StatusesAppend(h: seq<Fact>, f: Fact)
    ensures Statuses(h + [f]) ==
            if f.Committed? && f.after.status.Some? then Statuses(h) + [f.after.status.value] else Statuses(h)
  {
    assert (h + [f])[..|h|] == h;
  }

  lemma TosAppend(log: seq<LogRecord>, r: LogRecord)
    ensures Tos(log + [r]) == if r.to.Some? then Tos(log) + [r.to.value] else Tos(log)
    ensures log != [] ==> Breaks(log + [r]) == Breaks(log) + (if r.from != log[|log| - 1].to then 1 else 0)
    ensures log == [] ==> Breaks(log + [r]) == 0
  {
    assert (log + [r])[..|log|] == log;
  }

  lemma SubsequenceAppend(a: seq<Status>, b: seq<Status>, x: Status)
    requires IsSubsequence(a, b)
    ensures IsSubsequence(a, b + [x]) && IsSubsequence(a + [x], b + [x])
  {
    assert (b + [x])[..|b|] == b && (a + [x])[..|a|] == a;
  }

  /** One fact that concerns neither commits nor deaths after the audit write. */
  lemma Unlogged(s: Sys, t: Sys, f: Fact)
    requires LogInv(s)
    requires t.log == s.log && t.checkpoint.state.status == s.checkpoint.state.status
    requires t.history == s.history + [f] && !f.Committed? && (f.Died? ==> !f.logged)
    ensures LogInv(t)
  {
    StatusesAppend(s.history, f);
    CountOne(s.history, f, (g: Fact) => DiedUncommitted(g));
    assert forall g | g in s.history :: g in t.history;
  }

  /** A record written, and the node either committed or lost right after. */
  lemma Logged(s: Sys, t: Sys, r: LogRecord, f: Fact)
    requires LogInv(s)
    requires t.log == s.log + [r] && t.history == s.history + [f]
    requires r.from == s.checkpoint.state.status
    requires if f.Committed? then f.after.status == r.to && t.checkpoint.state.status == r.to
             else f.Died? && f.logged && (f.changed <==> r.from != r.to) && t.checkpoint == s.checkpoint
    ensures LogInv(t)
  {
    StatusesAppend(s.history, f);
    TosAppend(s.log, r);
    CountOne(s.history, f, (g: Fact) => DiedUncommitted(g));
    if r.to.Some? {
      SubsequenceAppend(Statuses(s.history), Tos(s.log), r.to.value);
    }
    assert f in t.history && forall g | g in s.history :: g in t.history;
  }

  /** The last fact of a step and what the step logged. */
  ghost predicate LogsFact(s: Sys, t: Sys, f: Fact) {
    if t.log == s.log then
      !f.Committed? && (f.Died? ==> !f.logged) && t.checkpoint.state == s.checkpoint.state
    else
      && |t.log| == |s.log| + 1
      && var r := t.log[|s.log|];
        && t.log == s.log + [r]
        && r.from == s.checkpoint.state.status
        && if f.Committed? then f.after.status == r.to && t.checkpoint.state.status == r.to
           else f.Died? && f.logged && (f.changed <==> r.from != r.to) && t.checkpoint == s.checkpoint
  }

  lemma StepLogs(revalidating: bool, s: Sys, e: Event)
    ensures var t, g := Step(revalidating, s, e), Added(revalidating, s, e);
      && (g == [] ==> t.log == s.log && t.checkpoint == s.checkpoint)
      && (g != [] ==> LogsFact(s, t, g[|g| - 1]))
      && |g| <= 2 && (|g| == 2 ==> g[0].ToolCalled?)
  {
    if e.NodeRun? && s.checkpoint.next != End {
      BodyLogs(revalidating, s, RunBody(s.checkpoint, s.world, s.ledger, e.oracle), e.crash, e.timestamp);
    }
  }

  lemma BodyLogs(revalidating: bool, s: Sys, body: Option<Body>, crash: Crash, timestamp: int)
    ensures var t, g := AfterBody(revalidating, s, body, crash, timestamp), FactsOf(s.checkpoint, body, crash);
      && 0 < |g| <= 2 && (|g| == 2 ==> g[0].ToolCalled?) && LogsFact(s, t, g[|g| - 1])
  {
  }

  lemma StepKeepsLog(revalidating: bool, s: Sys, e: Event)
    requires LogInv(s)
    ensures LogInv(Step(revalidating, s, e))
  {
    var t, g := Step(revalidating, s, e), Added(revalidating, s, e);
    StepLogs(revalidating, s, e);
    FactsKeepLog(s, t, g);
  }

  lemma FactsKeepLog(s: Sys, t: Sys, g: seq<Fact>)
    requires LogInv(s) && t.history == s.history + g
    requires g == [] ==> t.log == s.log && t.checkpoint == s.checkpoint
    requires g != [] ==> LogsFact(s, t, g[|g| - 1])
    requires |g| <= 2 && (|g| == 2 ==> g[0].ToolCalled?)
    ensures LogInv(t)
  {
    if |g| == 2 {
      assert t.history == s.history + [g[0]] + [g[1]];
      CallAndLastKeepLog(s, t, g[0], g[1]);
    } else if |g| == 1 {
      assert g == [g[0]];
      LastFactKeepsLog(s, t, g[0]);
    } else {
      assert s.history + g == s.history;
    }
  }

  lemma CallAndLastKeepLog(s: Sys, t: Sys, call: Fact, f: Fact)
    requires LogInv(s) && t.history == s.history + [call] + [f] && call.ToolCalled? && LogsFact(s, t, f)
    ensures LogInv(t)
  {
    var m := s.(history := s.history + [call]);
    Unlogged(s, m, call);
    LastFactKeepsLog(m, t, f);
  }

  lemma LastFactKeepsLog(s: Sys, t: Sys, f: Fact)
    requires LogInv(s) && t.history == s.history + [f] && LogsFact(s, t, f)
    ensures LogInv(t)
  {
    if t.log == s.log {
      Unlogged(s, t, f);
    } else {
      Logged(s, t, t.log[|s.log|], f);
    }
  }

  lemma {:induction false} RunKeepsLog(revalidating: bool, s: Sys, events: seq<Event>)
    requires LogInv(s)
    ensures LogInv(Run(revalidating, s, events))
  {
    if events != [] {
      var n := |events| - 1;
      RunKeepsLog(revalidating, s, events[..n]);
      StepKeepsLog(revalidating, Run(revalidating, s, events[..n]), events[n]);
    }
  }

  /** The audit log runs ahead of the checkpoint. Whatever crashes, restarts and interference a run
      meets, if its clock never runs backwards, the committed statuses are a subsequence of the replayed
      log; the chain breaks exactly once for each death between audit write and commit in a node that
      changes the status (a last one may still be pending), so at most once per death. The chain is complete exactly
      if there is no such death but one still pending; if no process died between audit write and commit at all, the
      replay is the status trace itself. */
  lemma LogAheadOfCheckpoint(revalidating: bool, runId: string, s: Sys, events: seq<Event>)
    requires Fresh(s, runId)
    requires ClockForward(Run(revalidating, s, events).log)
    ensures var t := Run(revalidating, s, events);
      && IsSubsequence(Statuses(t.history), ReplayRun(t.log))
      && Breaks(Ordered(t.log)) + Pending(t) == UncommittedDeaths(t.history) <= Deaths(t.history)
      && (IsCompleteChain(t.log) <==> UncommittedDeaths(t.history) == Pending(t))
      && ((forall f | f in t.history :: f.Died? ==> !f.logged) ==> ReplayRun(t.log) == Statuses(t.history))
  {
    RunKeepsLog(revalidating, s, events);
    var t := Run(revalidating, s, events);
    OrderedIdentity(t.log);
    UncommittedAreDeaths(t.history);
    NoBreaksIsChain(t.log);
  }

  lemma {:induction false} UncommittedAreDeaths(h: seq<Fact>)
    ensures UncommittedDeaths(h) <= Deaths(h)
  {
    if h != [] {
      UncommittedAreDeaths(h[..|h| - 1]);
    }
  }

  // ---- The status trace is a walk in the documented diagram. ----

  /** The diagram of README.md, lines 140-161. */
  predicate InDiagram(a: Status, b: Status) {
    match a
    case DIAGNOSING => b == ACTION_PROPOSED
    case ACTION_PROPOSED => b == RISK_CLASSIFIED
    case RISK_CLASSIFIED => b == EXECUTING || b == AWAITING_APPROVAL
    case AWAITING_APPROVAL => b == REVALIDATING || b == REPLANNING || b == ESCALATED
    case REVALIDATING => b == EXECUTING || b == REPLANNING
    case EXECUTING => b == VERIFYING
    case VERIFYING => b == COMPLETED || b == ROLLING_BACK
    case ROLLING_BACK => b == ROLLED_BACK
    case ROLLED_BACK => b == REPLANNING
    case REPLANNING => b == ACTION_PROPOSED || b == ESCALATED
    case ESCALATED => false
    case COMPLETED => false
  }

  /** The edges the code has beyond the diagram; without revalidation AWAITING_APPROVAL leads
      to EXECUTING and never to REVALIDATING. */
  predicate Edge(revalidating: bool, a: Status, b: Status) {
    || (InDiagram(a, b) && (revalidating || (a != REVALIDATING && b != REVALIDATING)))
    || (a == ACTION_PROPOSED && b == REPLANNING)
    || (a == b == EXECUTING)
    || (a == b == AWAITING_APPROVAL)
    || (!revalidating && a == AWAITING_APPROVAL && b == EXECUTING)
  }

  /** The statuses a thread may have when `node` is next. */
  function Before(revalidating: bool, node: Node): set<Status> {
    match node
    case Diagnose => {}
    case ProposeAction => {DIAGNOSING, REPLANNING}
    case ClassifyRisk => {ACTION_PROPOSED}
    case MarkAwaiting => {RISK_CLASSIFIED}
    case AwaitApproval => {AWAITING_APPROVAL}
    case Revalidate => if revalidating then {AWAITING_APPROVAL} else {}
    case PrepareExecution => {RISK_CLASSIFIED, if revalidating then REVALIDATING else AWAITING_APPROVAL}
    case Execute => {EXECUTING}
    case Verify => {EXECUTING}
    case RollingBack => {VERIFYING}
    case RolledBack => {ROLLING_BACK}
    case Replan =>
      {ACTION_PROPOSED, AWAITING_APPROVAL, ROLLED_BACK} + (if revalidating then {REVALIDATING} else {})
    case Escalate => {AWAITING_APPROVAL, REPLANNING}
    case Complete => {VERIFYING}
    case End => {COMPLETED, ESCALATED}
  }

  ghost predicate Positioned(revalidating: bool, c: Checkpoint) {
    c.next != Diagnose ==> c.state.status.Some? && c.state.status.value in Before(revalidating, c.next)
  }

  lemma UpdatePositions(revalidating: bool, node: Node, s: AgentState, r: Reply)
    requires Positioned(revalidating, Checkpoint(node, s))
    requires Update(node, s, r).Some?
    ensures var after := Update(node, s, r).value;
      && Positioned(revalidating, Checkpoint(Next(revalidating, node, after), after))
      && after.status.Some? && Next(revalidating, node, after) != Diagnose
      && (node == Diagnose ==> after.status == Some(DIAGNOSING))
      && (node != Diagnose ==> Edge(revalidating, s.status.value, after.status.value))
  {
    var after := Update(node, s, r).value;
    UpdateStatus(node, s, r);
    NextPositions(revalidating, node, s.status, after);
  }

  /** The status a node leaves behind; `await_approval` leaves the one it finds. */
  function StatusAfter(node: Node, before: Option<Status>): Option<Status> {
    match node
    case Diagnose => Some(DIAGNOSING)
    case ProposeAction => Some(ACTION_PROPOSED)
    case ClassifyRisk => Some(RISK_CLASSIFIED)
    case MarkAwaiting => Some(AWAITING_APPROVAL)
    case AwaitApproval => before
    case Revalidate => Some(REVALIDATING)
    case PrepareExecution => Some(EXECUTING)
    case Execute => Some(EXECUTING)
    case Verify => Some(VERIFYING)
    case RollingBack => Some(ROLLING_BACK)
    case RolledBack => Some(ROLLED_BACK)
    case Replan => Some(REPLANNING)
    case Escalate => Some(ESCALATED)
    case Complete => Some(COMPLETED)
    case End => before
  }

  lemma UpdateStatus(node: Node, s: AgentState, r: Reply)
    requires Update(node, s, r).Some?
    ensures Update(node, s, r).value.status == StatusAfter(node, s.status) && node != End
  {
  }

  lemma NextPositions(revalidating: bool, node: Node, before: Option<Status>, after: AgentState)
    requires node != End && after.status == StatusAfter(node, before)
    requires node != Diagnose ==> before.Some? && before.value in Before(revalidating, node)
    ensures Positioned(revalidating, Checkpoint(Next(revalidating, node, after), after))
    ensures after.status.Some? && Next(revalidating, node, after) != Diagnose
    ensures node != Diagnose ==> Edge(revalidating, before.value, after.status.value)
  {
  }

  ghost predicate Walk(revalidating: bool, statuses: seq<Status>) {
    && (statuses != [] ==> statuses[0] == DIAGNOSING)
    && forall i :: 0 < i < |statuses| ==> Edge(revalidating, statuses[i - 1], statuses[i])
  }

  ghost predicate Walking(revalidating: bool, s: Sys) {
    && Positioned(revalidating, s.checkpoint)
    && Walk(revalidating, Statuses(s.history))
    && (s.checkpoint.next == Diagnose <==> Statuses(s.history) == [])
    && (Statuses(s.history) != [] ==> s.checkpoint.state.status == Some(Statuses(s.history)[|Statuses(s.history)| - 1]))
  }

  lemma {:induction false} StatusesOfCalls(h: seq<Fact>, g: seq<Fact>)
    requires forall f | f in g :: !f.Committed?
    ensures Statuses(h + g) == Statuses(h)
  {
    if g == [] {
      assert h + g == h;
    } else {
      var n := |g| - 1;
      assert g[n] in g && forall f | f in g[..n] :: f in g;
      StatusesOfCalls(h, g[..n]);
      assert h + g == h + g[..n] + [g[n]];
      StatusesAppend(h + g[..n], g[n]);
    }
  }

  lemma StepKeepsWalking(revalidating: bool, s: Sys, e: Event)
    requires Walking(revalidating, s) && !e.StartAgain?
    ensures Walking(revalidating, Step(revalidating, s, e))
  {
    var t, g := Step(revalidating, s, e), Added(revalidating, s, e);
    var reply := CheckpointStep(revalidating, s, e);
    if t.checkpoint == s.checkpoint && forall f | f in g :: f.ToolCalled? || f.Died? {
      StatusesOfCalls(s.history, g);
    } else {
      LastCommitKeepsWalking(revalidating, s, t, g, reply);
    }
  }

  lemma LastCommitKeepsWalking(revalidating: bool, s: Sys, t: Sys, g: seq<Fact>, reply: Reply)
    requires Walking(revalidating, s) && t.history == s.history + g && g != []
    requires Update(s.checkpoint.next, s.checkpoint.state, reply).Some?
    requires var after := Update(s.checkpoint.next, s.checkpoint.state, reply).value;
      && t.checkpoint == Checkpoint(Next(revalidating, s.checkpoint.next, after), after)
      && g[|g| - 1] == Committed(s.checkpoint.next, s.checkpoint.state, after)
    requires forall f | f in g[..|g| - 1] :: f.ToolCalled?
    ensures Walking(revalidating, t)
  {
    var n := |g| - 1;
    forall f | f in g[..n]
      ensures !f.Committed?
    {
      assert f.ToolCalled?;
    }
    StatusesOfCalls(s.history, g[..n]);
    assert t.history == s.history + g[..n] + [g[n]];
    StatusesAppend(s.history + g[..n], g[n]);
    CommitKeepsWalking(revalidating, s, t, reply);
  }

  lemma CommitKeepsWalking(revalidating: bool, s: Sys, t: Sys, reply: Reply)
    requires Walking(revalidating, s)
    requires Update(s.checkpoint.next, s.checkpoint.state, reply).Some?
    requires var after := Update(s.checkpoint.next, s.checkpoint.state, reply).value;
      && t.checkpoint == Checkpoint(Next(revalidating, s.checkpoint.next, after), after)
      && Statuses(t.history) ==
           if after.status.Some? then Statuses(s.history) + [after.status.value] else Statuses(s.history)
    ensures Walking(revalidating, t)
  {
    UpdatePositions(revalidating, s.checkpoint.next, s.checkpoint.state, reply);
  }

  /** The committed statuses of a run that is never started again - crashed and continued or not -
      are a walk from DIAGNOSING along the diagram and the code's extra edges, ending at its current status. */
  lemma {:induction false} StatusesWalkTheDiagram(revalidating: bool, runId: string, s: Sys, events: seq<Event>)
    requires Fresh(s, runId)
    requires forall e | e in events :: !e.StartAgain?
    ensures Walking(revalidating, Run(revalidating, s, events))
  {
    if events != [] {
      var n := |events| - 1;
      assert events[n] in events && forall e | e in events[..n] :: e in events;
      StatusesWalkTheDiagram(revalidating, runId, s, events[..n]);
      StepKeepsWalking(revalidating, Run(revalidating, s, events[..n]), events[n]);
    }
  }

  // ---- What a record says of its node. ----

  function CommitFacts(h: seq<Fact>): seq<Fact> {
    if h == [] then []
    else
      var last := h[|h| - 1];
      CommitFacts(h[..|h| - 1]) + (if last.Committed? then [last] else [])
  }

  lemma CommitFactsAppend(h: seq<Fact>, f: Fact)
    ensures CommitFacts(h + [f]) == CommitFacts(h) + (if f.Committed? then [f] else [])
  {
    assert (h + [f])[..|h|] == h;
  }

  lemma {:induction false} NoCommitFacts(h: seq<Fact>, g: seq<Fact>)
    requires forall f | f in g :: !f.Committed?
    ensures CommitFacts(h + g) == CommitFacts(h)
  {
    if g == [] {
      assert h + g == h;
    } else {
      var n := |g| - 1;
      assert g[n] in g && forall f | f in g[..n] :: f in g;
      NoCommitFacts(h, g[..n]);
      assert h + g == h + g[..n] + [g[n]];
      CommitFactsAppend(h + g[..n], g[n]);
    }
  }

  /** The record of a committed node: both statuses, the action, tier and key as it left them, the decision and its
      approver if it took one, and who acted. */
  ghost predicate Tells(r: LogRecord, f: Fact) {
    && f.Committed? && r.runId == f.after.runId && r.from == f.before.status && r.to == f.after.status
    && r.action == f.after.action && r.tier == f.after.tier && r.key == f.after.key
    && r.decision == (if f.node == AwaitApproval then f.after.decision else None)
    && r.approver == (if f.node == AwaitApproval then f.after.approver else None)
    && r.actor ==
         if f.node == AwaitApproval && f.after.decision != Some(Timeout) then HumanActor
         else if f.node in {AwaitApproval, MarkAwaiting, RolledBack, Escalate, Complete} then SystemActor
         else AgentActor
  }

  ghost predicate AllTold(s: Sys) {
    var commits := CommitFacts(s.history);
    |s.log| == |commits| && forall i :: 0 <= i < |s.log| ==> Tells(s.log[i], commits[i])
  }

  lemma RecordTells(timestamp: int, node: Node, s: AgentState, after: AgentState)
    ensures Tells(MakeRecord(timestamp, node, s, after), Committed(node, s, after))
  {
  }

  /** One more commit, told by one more record; or neither. */
  lemma ToldOn(s: Sys, t: Sys, calls: seq<Fact>, f: Fact)
    requires AllTold(s) && t.history == s.history + calls + [f] && forall c | c in calls :: !c.Committed?
    requires if f.Committed? then exists r :: t.log == s.log + [r] && Tells(r, f) else t.log == s.log
    ensures AllTold(t)
  {
    NoCommitFacts(s.history, calls);
    CommitFactsAppend(s.history + calls, f);
  }

  lemma BodyKeepsTold(revalidating: bool, s: Sys, body: Option<Body>, crash: Crash, timestamp: int)
    requires AllTold(s)
    requires forall f | f in FactsOf(s.checkpoint, body, crash) :: f.Died? ==> !f.logged
    requires body.Some? && body.value.call.Some? ==> body.value.call.value.ToolCalled?
    ensures AllTold(AfterBody(revalidating, s, body, crash, timestamp))
  {
    var t, g := AfterBody(revalidating, s, body, crash, timestamp), FactsOf(s.checkpoint, body, crash);
    BodyAdds(revalidating, s, body, crash, timestamp);
    var n := |g| - 1;
    assert g[n] in g && s.history + g == s.history + g[..n] + [g[n]];
    LastFactLogged(revalidating, s, body, crash, timestamp);
    ToldOn(s, t, g[..n], g[n]);
  }

  /** A body that gets as far as the commit leaves its record. */
  lemma LastFactLogged(revalidating: bool, s: Sys, body: Option<Body>, crash: Crash, timestamp: int)
    requires body.Some? && body.value.call.Some? ==> body.value.call.value.ToolCalled?
    ensures var t, g := AfterBody(revalidating, s, body, crash, timestamp), FactsOf(s.checkpoint, body, crash);
      && g != [] && (forall c | c in g[..|g| - 1] :: !c.Committed?)
      && (g[|g| - 1].Committed? ==> exists r :: t.log == s.log + [r] && Tells(r, g[|g| - 1]))
      && (g[|g| - 1].Died? && !g[|g| - 1].logged ==> t.log == s.log)
      && !g[|g| - 1].ToolCalled? && !g[|g| - 1].StartedAgain?
  {
    if body.Some? {
      var r := MakeRecord(timestamp, s.checkpoint.next, s.checkpoint.state, body.value.after);
      RecordTells(timestamp, s.checkpoint.next, s.checkpoint.state, body.value.after);
      assert crash == Survives ==> AfterBody(revalidating, s, body, crash, timestamp).log == s.log + [r];
    }
  }

  lemma CallsAreCalls(c: Checkpoint, w: World, ledger: Ledger, o: Oracle)
    ensures var body := RunBody(c, w, ledger, o);
      body.Some? && body.value.call.Some? ==> body.value.call.value.ToolCalled?
  {
  }

  /** The log of every run without a death between audit write and commit is its committed nodes, record by record. */
  lemma {:induction false} RecordsTellCommits(revalidating: bool, runId: string, s: Sys, events: seq<Event>)
    requires Fresh(s, runId)
    requires forall f | f in Run(revalidating, s, events).history :: f.Died? ==> !f.logged
    ensures AllTold(Run(revalidating, s, events))
  {
    if events != [] {
      var n := |events| - 1;
      var m, e := Run(revalidating, s, events[..n]), events[n];
      var g := Added(revalidating, m, e);
      assert Run(revalidating, s, events).history == m.history + g;
      assert forall f | f in m.history + g :: f in Run(revalidating, s, events).history;
      RecordsTellCommits(revalidating, runId, s, events[..n]);
      if e.NodeRun? && m.checkpoint.next != End {
        CallsAreCalls(m.checkpoint, m.world, m.ledger, e.oracle);
        BodyKeepsTold(revalidating, m, RunBody(m.checkpoint, m.world, m.ledger, e.oracle), e.crash, e.timestamp);
      } else {
        NoCommitFacts(m.history, g);
      }
    }
  }

  // ---- One-time events stay one-time. ----

  lemma LogOfBody(revalidating: bool, s: Sys, body: Option<Body>, crash: Crash, timestamp: int)
    ensures var log := AfterBody(revalidating, s, body, crash, timestamp).log;
      log == s.log ||
      (body.Some? && log == s.log + [MakeRecord(timestamp, s.checkpoint.next, s.checkpoint.state, body.value.after)])
  {
  }

  lemma BodyIsUpdate(c: Checkpoint, s: Sys, o: Oracle, body: Body) returns (reply: Reply)
    requires RunBody(c, s.world, s.ledger, o) == Some(body)
    ensures Update(c.next, c.state, reply) == Some(body.after)
  {
    reply := Ask(c.next, c.state, s.world, s.ledger, o).value.3;
  }

  /** A record carries a decision exactly if it is the self-loop of `await_approval`; an approver only with a
      decision; and its actor is human exactly for a decision that is no timeout. */
  ghost predicate RecordClear(runId: string, r: LogRecord) {
    && r.runId == runId
    && (r.decision.Some? <==> r.from == r.to == Some(AWAITING_APPROVAL))
    && (r.approver.Some? ==> r.decision.Some?)
    && (r.actor == HumanActor <==> r.decision.Some? && r.decision != Some(Timeout))
  }

  lemma RecordOfUpdate(revalidating: bool, runId: string, node: Node, s: AgentState, reply: Reply, timestamp: int)
    requires Positioned(revalidating, Checkpoint(node, s)) && s.runId == runId && Update(node, s, reply).Some?
    ensures var after := Update(node, s, reply).value;
      RecordClear(runId, MakeRecord(timestamp, node, s, after)) && after.runId == runId
  {
    UpdateStatus(node, s, reply);
  }

  ghost predicate LogClear(revalidating: bool, runId: string, s: Sys) {
    && Positioned(revalidating, s.checkpoint) && s.checkpoint.state.runId == runId
    && forall r | r in s.log :: RecordClear(runId, r)
  }

  lemma BodyMoves(revalidating: bool, s: Sys, body: Body, crash: Crash, timestamp: int)
    ensures var t := AfterBody(revalidating, s, Some(body), crash, timestamp);
      t.checkpoint == s.checkpoint
      || t.checkpoint == Checkpoint(Next(revalidating, s.checkpoint.next, body.after), body.after)
  {
  }

  lemma StepKeepsClear(revalidating: bool, runId: string, s: Sys, e: Event)
    requires LogClear(revalidating, runId, s)
    ensures LogClear(revalidating, runId, Step(revalidating, s, e))
  {
    if e.NodeRun? && s.checkpoint.next != End {
      var c, body := s.checkpoint, RunBody(s.checkpoint, s.world, s.ledger, e.oracle);
      LogOfBody(revalidating, s, body, e.crash, e.timestamp);
      if body.Some? {
        var reply := BodyIsUpdate(c, s, e.oracle, body.value);
        RecordOfUpdate(revalidating, runId, c.next, c.state, reply, e.timestamp);
        UpdatePositions(revalidating, c.next, c.state, reply);
        BodyMoves(revalidating, s, body.value, e.crash, e.timestamp);
      }
    }
  }

  /** Over every run, whatever crashes, restarts and interference it meets: no decision, approver or human actor
      leaks into the record of another transition, although all three stay in the channels. */
  lemma {:induction false} DecisionsDontLeak(revalidating: bool, runId: string, s: Sys, events: seq<Event>)
    requires Fresh(s, runId)
    ensures LogClear(revalidating, runId, Run(revalidating, s, events))
  {
    if events != [] {
      var n := |events| - 1;
      DecisionsDontLeak(revalidating, runId, s, events[..n]);
      StepKeepsClear(revalidating, runId, Run(revalidating, s, events[..n]), events[n]);
    }
  }
}
