/** An approved delete followed through every way a run can take from `revalidate` to `execute`. */
module ApprovedDeletes {
  import opened Options
  import opened Records
  import opened Actions
  import opened Tools
  import opened Observations
  import opened Workflow
  import opened Durable
  import opened Conservation
  import opened Evidence

  ghost predicate Deletes(a: string, kind: string) { Parse(a) == Some(Parsed(Some(Tool.DeleteRecords), kind)) }

  lemma DeleteParses(a: string, kind: string, params: Params)
    requires Deletes(a, kind) && params.ids == Missing
    ensures ParseCall(a, params) == Some(DeleteCall(kind, None))
  {
  }

  lemma DeletePrint(w: World, a: string, kind: string)
    requires Deletes(a, kind) && Gather(w).Some?
    ensures Fingerprint(Gather(w).value, a) == Some(RecordFields(kind, VisibleIds(w.table, kind)))
  {
  }

  /** Before `revalidate` the fingerprint is that of the last sweep of the run, also after an edit. */
  lemma FingerprintIsLastSweeps(runId: string, start: Sys, events: seq<Event>)
    requires Fresh(start, runId)
    requires Run(true, start, events).checkpoint.next == Revalidate
    ensures var t := Run(true, start, events);
      var c := t.checkpoint.state;
      && LastSweep(t.history).Some? && c.action.Some? && c.fingerprint.Some?
      && c.fingerprint == Fingerprint(LastSweep(t.history).value, c.action.value)
  {
    EvidenceIsSound(true, runId, start, events);
  }

  // ---- From `revalidate` to `verify`, whatever dies on the way. ----

  /** A delete of `kind` waits to be revalidated, and the sandbox shows what its fingerprint holds. */
  ghost predicate Waits(s: Sys, a: string, kind: string) {
    var c := s.checkpoint.state;
    && s.checkpoint.next == Revalidate && c.action == Some(a) && Deletes(a, kind) && c.params.ids == Missing
    && Key(c.runId, a) !in s.ledger
    && Gather(s.world).Some? && c.fingerprint == Some(RecordFields(kind, VisibleIds(s.world.table, kind)))
  }

  ghost function TheDelete(s: Sys, a: string, kind: string): Outcome
    requires Waits(s, a, kind)
  {
    RunIdempotent(s.world, s.ledger, Key(s.checkpoint.state.runId, a), DeleteCall(kind, None)).value
  }

  /** `m` is on the way from `s`: nothing was deleted yet, or just what `TheDelete` says. */
  ghost predicate OnTheWay(s: Sys, m: Sys, a: string, kind: string)
    requires Waits(s, a, kind)
  {
    var c, d, out := s.checkpoint.state, m.checkpoint.state, TheDelete(s, a, kind);
    var before := m.world == s.world && m.ledger == s.ledger;
    var after := m.world == out.world && m.ledger == out.ledger;
    && d.action == Some(a) && d.params == c.params && d.runId == c.runId
    && match m.checkpoint.next
       case Revalidate => before && d.fingerprint == c.fingerprint
       case PrepareExecution => before
       case Execute => (before || after) && d.key == Some(Key(c.runId, a))
       case Verify => after && d.result == Some(out.entry.result)
       case _ => false
  }

  lemma DeathStays(revalidating: bool, s: Sys, e: Event)
    requires e.NodeRun? && s.checkpoint.next != End
    requires RunBody(s.checkpoint, s.world, s.ledger, e.oracle).None? || e.crash == BeforeEffect
             || (e.crash != Survives && s.checkpoint.next != Execute && s.checkpoint.next != RollingBack)
    ensures var t := Step(revalidating, s, e);
      t.checkpoint == s.checkpoint && t.world == s.world && t.ledger == s.ledger
  {
    var body := RunBody(s.checkpoint, s.world, s.ledger, e.oracle);
    if body.Some? && e.crash != BeforeEffect {
      ReadOnlyBody(s.checkpoint, s.world, s.ledger, e.oracle);
    }
    DeathOfBody(revalidating, s, body, e.crash, e.timestamp);
  }

  lemma RevalidatedOnTheWay(s: Sys, m: Sys, e: Event, a: string, kind: string)
    requires Waits(s, a, kind) && OnTheWay(s, m, a, kind) && m.checkpoint.next == Revalidate
    requires e.NodeRun? && e.crash == Survives && RunBody(m.checkpoint, m.world, m.ledger, e.oracle).Some?
    ensures OnTheWay(s, Step(true, m, e), a, kind)
  {
    DeletePrint(s.world, a, kind);
    ReadOnlyBody(m.checkpoint, m.world, m.ledger, e.oracle);
    PassingBody(m.checkpoint, m.world, m.ledger, e.oracle);
  }

  lemma PassingBody(c: Checkpoint, w: World, ledger: Ledger, o: Oracle)
    requires c.next == Revalidate && RunBody(c, w, ledger, o).Some? && c.state.action.Some? && Gather(w).Some?
    requires Fingerprint(Gather(w).value, c.state.action.value) == c.state.fingerprint
    ensures var after := RunBody(c, w, ledger, o).value.after;
      && Next(true, Revalidate, after) == PrepareExecution
      && after.action == c.state.action && after.params == c.state.params && after.runId == c.state.runId
  {
  }

  lemma PreparedOnTheWay(s: Sys, m: Sys, e: Event, a: string, kind: string)
    requires Waits(s, a, kind) && OnTheWay(s, m, a, kind) && m.checkpoint.next == PrepareExecution
    requires e.NodeRun? && e.crash == Survives && RunBody(m.checkpoint, m.world, m.ledger, e.oracle).Some?
    ensures OnTheWay(s, Step(true, m, e), a, kind)
  {
  }

  lemma ExecutedOnTheWay(s: Sys, m: Sys, e: Event, a: string, kind: string)
    requires Waits(s, a, kind) && OnTheWay(s, m, a, kind) && m.checkpoint.next == Execute
    requires e.NodeRun? && e.crash != BeforeEffect && RunBody(m.checkpoint, m.world, m.ledger, e.oracle).Some?
    requires NothingLost(Step(true, m, e).history)
    ensures OnTheWay(s, Step(true, m, e), a, kind)
  {
    DeleteParses(a, kind, m.checkpoint.state.params);
    ExecuteStep(true, m, e, a, Key(s.checkpoint.state.runId, a));
  }

  lemma StepOnTheWay(s: Sys, m: Sys, e: Event, a: string, kind: string)
    requires Waits(s, a, kind) && OnTheWay(s, m, a, kind) && m.checkpoint.next != Verify
    requires e.NodeRun? && NothingLost(Step(true, m, e).history)
    ensures OnTheWay(s, Step(true, m, e), a, kind)
  {
    if RunBody(m.checkpoint, m.world, m.ledger, e.oracle).None? || e.crash == BeforeEffect {
      DeathStays(true, m, e);
    } else if m.checkpoint.next == Execute {
      ExecutedOnTheWay(s, m, e, a, kind);
    } else if e.crash != Survives {
      DeathStays(true, m, e);
    } else if m.checkpoint.next == Revalidate {
      RevalidatedOnTheWay(s, m, e, a, kind);
    } else {
      PreparedOnTheWay(s, m, e, a, kind);
    }
  }

  /** `more` holds node runs only, loses no ledger write, and does not pass `verify`. */
  ghost predicate UpToVerify(s: Sys, more: seq<Event>) {
    && (forall e | e in more :: e.NodeRun?)
    && NothingLost(Run(true, s, more).history)
    && (forall n :: 0 <= n < |more| ==> NotYet(s, more, n))
  }

  ghost predicate NotYet(s: Sys, more: seq<Event>, n: nat)
    requires n <= |more|
  {
    Run(true, s, more[..n]).checkpoint.next != Verify
  }

  lemma UpToFront(s: Sys, more: seq<Event>)
    requires more != [] && UpToVerify(s, more)
    ensures UpToVerify(s, more[..|more| - 1])
  {
    var n := |more| - 1;
    LastStep(true, s, more);
    assert forall e | e in more[..n] :: e in more;
    forall k | 0 <= k < n
      ensures NotYet(s, more[..n], k)
    {
      assert NotYet(s, more, k) && more[..n][..k] == more[..k];
    }
  }

  lemma {:induction false} StaysOnTheWay(s: Sys, more: seq<Event>, a: string, kind: string)
    requires Waits(s, a, kind) && UpToVerify(s, more)
    ensures OnTheWay(s, Run(true, s, more), a, kind)
  {
    if more != [] {
      var n := |more| - 1;
      UpToFront(s, more);
      StaysOnTheWay(s, more[..n], a, kind);
      LastStep(true, s, more);
      assert NotYet(s, more, n) && more[n] in more;
      StepOnTheWay(s, Run(true, s, more[..n]), more[n], a, kind);
    }
  }

  /** An approved delete removes what was seen. However the run got to `revalidate`, and whatever crashes and
      continuations follow (a death after the ledger write among them): if the sandbox shows the
      fingerprinted ids, no explicit ids are given, the key is new, nobody interferes and no ledger write
      is lost, then the run stays between `revalidate` and `verify`, and when it first comes to `verify`
      the deleted ids are exactly the fingerprinted ones if and only if the sweep shows every row of the
      kind, and every other row is untouched. */
  lemma ApprovedDeleteRemovesWhatWasSeen(
      runId: string, start: Sys, before: seq<Event>, more: seq<Event>, a: string, kind: string)
    requires Fresh(start, runId)
    requires var s := Run(true, start, before); Waits(s, a, kind) && UpToVerify(s, more)
    ensures var s := Run(true, start, before);
      var t, seen := Run(true, s, more), VisibleIds(s.world.table, kind);
      && LastSweep(s.history).Some? && Fingerprint(LastSweep(s.history).value, a) == Some(RecordFields(kind, seen))
      && t.checkpoint.next in {Revalidate, PrepareExecution, Execute, Verify}
      && (t.checkpoint.next == Verify ==>
            && t.checkpoint.state.result.Some? && t.checkpoint.state.result.value.Deleted?
            && RemovedExactly(s.world, t.world, kind, t.checkpoint.state.result.value.ids))
  {
    var s := Run(true, start, before);
    FingerprintIsLastSweeps(runId, start, before);
    StaysOnTheWay(s, more, a, kind);
    DeletePrint(s.world, a, kind);
    ApprovedDelete(s.world, s.world, kind, s.ledger, Key(s.checkpoint.state.runId, a));
  }

  /** From `w` to `v` exactly `deleted` went: rows of the kind, the visible ones iff all of them are visible. */
  ghost predicate RemovedExactly(w: World, v: World, kind: string, deleted: seq<int>) {
    && (deleted == VisibleIds(w.table, kind) <==> AllVisible(w.table, kind))
    && (forall i | i in deleted :: i in IdsOfKind(w.table.rows, kind))
    && (forall i :: i in v.table.rows <==> i in w.table.rows && i !in deleted)
    && (forall i | i in v.table.rows :: v.table.rows[i] == w.table.rows[i])
    && v.services == w.services
  }
}
