/** Two runs that share a ledger key: an edited delete with a colon in its "kind", and another run's valid delete. */
module EditedKeys {
  import opened Options
  import opened Records
  import opened Actions
  import opened Tools
  import opened Observations
  import opened Workflow
  import opened Durable
  import opened ApprovedDeletes
  import opened Legs

  function DeleteOf(kind: string): string { Join(ToolName(Tool.DeleteRecords), kind) }

  /** `o` proposes to delete every row of the valid `kind`. */
  ghost predicate ProposesDelete(o: Oracle, kind: string) {
    o.tool == ToolName(Tool.DeleteRecords) && o.target == kind && kind in RECORD_KINDS && o.params.ids == Missing
  }

  lemma DeleteIsHigh(c: AgentState, o: Oracle, kind: string)
    requires ProposesDelete(o, kind) && c.observations.Some?
    ensures Deletes(ActionOf(o), kind) && Proposable(c, o) && PolicyTier(c, o) == HighRisk
  {
    ToolNameParses(Tool.DeleteRecords, kind);
  }

  // ---- The first run: an edit on its way to `execute`. ----

  /** To sleep, and woken by a decision that puts `a` in the place of the action. */
  lemma Editing(s: Sys, o: Oracle, a: string) returns (events: seq<Event>, t: Sys)
    requires s.checkpoint.next == MarkAwaiting && s.checkpoint.state.observations.Some?
    requires o.decision == Edited && o.edited == Some(a) && a != ""
    requires Fingerprint(s.checkpoint.state.observations.value, a).Some?
    ensures Leads(true, s, events, t, 2)
    ensures var c := s.checkpoint.state;
      At(t, Revalidate,
         c.(status := Some(AWAITING_APPROVAL), decision := Some(Edited), approver := o.approver, action := Some(a),
            fingerprint := Fingerprint(c.observations.value, a)), s.world, s.ledger)
  {
    var b := s.checkpoint.state.(status := Some(AWAITING_APPROVAL));
    var e1, m := Leg(true, s, o, Body(s.world, s.ledger, None, b));
    var after := OnDecision(b, o.decision, o.edited, o.approver).value;
    var e2, u := Leg(true, m, o, Body(s.world, s.ledger, None, after));
    Chain(true, s, e1, m, 1, e2, u, 1);
    events, t := e1 + e2, u;
  }

  lemma ProposedAndEdited(s: Sys, o: Oracle, kind: string, a: string, target: string)
    returns (events: seq<Event>, t: Sys)
    requires s.checkpoint.next == Diagnose && Gather(s.world).Some? && ProposesDelete(o, kind)
    requires o.decision == Edited && o.edited == Some(a) && a != "" && Deletes(a, target)
    ensures Leads(true, s, events, t, 5)
    ensures var c := t.checkpoint.state;
      && At(t, Revalidate, c, s.world, s.ledger) && c.runId == s.checkpoint.state.runId
      && c.action == Some(a) && c.params == o.params && c.fingerprint == Fingerprint(Gather(s.world).value, a)
  {
    DeletePrint(s.world, a, target);
    var e1, m := Diagnosing(true, s, o);
    DeleteIsHigh(m.checkpoint.state, o, kind);
    var e2, u := ProposingAndClassifying(true, m, o, HighRisk);
    Chain(true, s, e1, m, 1, e2, u, 2);
    var e3, v := Editing(u, o, a);
    Chain(true, s, e1 + e2, u, 3, e3, v, 2);
    events, t := e1 + e2 + e3, v;
  }

  /** Such a run is one of those `ApprovedDeletes.ApprovedDeleteRemovesWhatWasSeen` speaks of. */
  lemma EditedDeleteWaits(run: string, w: World, ledger: Ledger, o: Oracle, kind: string, a: string, target: string)
    returns (start: Sys, events: seq<Event>)
    requires Gather(w).Some? && ProposesDelete(o, kind)
    requires o.decision == Edited && o.edited == Some(a) && a != "" && Deletes(a, target)
    requires Key(run, a) !in ledger
    ensures start == Sys(Checkpoint(Diagnose, NewThread(run)), w, ledger, [], []) && Fresh(start, run)
    ensures Waits(Run(true, start, events), a, target)
  {
    start := Sys(Checkpoint(Diagnose, NewThread(run)), w, ledger, [], []);
    var t;
    events, t := ProposedAndEdited(start, o, kind, a, target);
    DeletePrint(w, a, target);
  }

  /** No check stands between the edit and `prepare_execution`: the edited delete passes `await_approval` and
      `revalidate` and is prepared under the key built from it. */
  lemma EditReachesExecution(s: Sys, o: Oracle, kind: string, a: string, target: string)
    returns (events: seq<Event>, t: Sys)
    requires s.checkpoint.next == Diagnose && Gather(s.world).Some? && ProposesDelete(o, kind)
    requires o.decision == Edited && o.edited == Some(a) && a != "" && Deletes(a, target)
    ensures Leads(true, s, events, t, 7)
    ensures var c := t.checkpoint.state;
      && At(t, Execute, c, s.world, s.ledger) && c.runId == s.checkpoint.state.runId
      && c.action == Some(a) && c.params == o.params && c.key == Some(Key(c.runId, a))
  {
    var e1, m := ProposedAndEdited(s, o, kind, a, target);
    DeletePrint(s.world, a, target);
    var e2, u := Rechecking(m, o, a);
    Chain(true, s, e1, m, 5, e2, u, 1);
    var e3, v := Preparing(true, u, o, a);
    Chain(true, s, e1 + e2, u, 6, e3, v, 1);
    events, t := e1 + e2 + e3, v;
  }

  /** Executed, it takes the key and leaves every row of other kinds. */
  lemma EditExecutes(s: Sys, o: Oracle, kind: string, a: string, target: string) returns (events: seq<Event>, t: Sys)
    requires s.checkpoint.next == Diagnose && Gather(s.world).Some? && ProposesDelete(o, kind)
    requires o.decision == Edited && o.edited == Some(a) && a != "" && Deletes(a, target)
    requires Key(s.checkpoint.state.runId, a) !in s.ledger
    ensures Leads(true, s, events, t, 8) && t.checkpoint.next == Verify
    ensures var key, ids := Key(s.checkpoint.state.runId, a), IdsIn(ByKind(s.world.table, Some(target), NO_LIMIT));
      && key in t.ledger && t.ledger[key].result == Deleted(target, ids)
      && t.world.services == s.world.services && t.world.table == Delete(s.world.table, ids)
  {
    var e1, m := EditReachesExecution(s, o, kind, a, target);
    DeleteParses(a, target, o.params);
    var key := Key(s.checkpoint.state.runId, a);
    DeleteOutcome(s.world, target, s.ledger, key);
    var out := RunIdempotent(s.world, s.ledger, key, DeleteCall(target, None)).value;
    var e2, u := Executing(true, m, o, a, key, out);
    Chain(true, s, e1, m, 7, e2, u, 1);
    events, t := e1 + e2, u;
  }

  // ---- The second run: its approved delete is a replay of the first run's. ----

  lemma ReplayVerifies(w: World, a: string, kind: string, other: string, ids: seq<int>)
    requires Deletes(a, kind) && forall i | i in ids :: i !in w.table.rows
    ensures VerifyAction(w, a, Deleted(other, ids)) == Some(true)
  {
    var rows := ByKind(w.table, Some(kind), NO_LIMIT);
    ByKindSnapshot(w.table, Some(kind), NO_LIMIT);
    assert forall i | i in IdsIn(rows) :: i in w.table.rows;
  }

  lemma DeleteReplayed(s: Sys, o: Oracle, kind: string, entry: Entry) returns (events: seq<Event>, t: Sys)
    requires s.checkpoint.next == Diagnose && Gather(s.world).Some? && ProposesDelete(o, kind)
    requires o.decision == Approved && o.edited.None?
    requires var key := Key(s.checkpoint.state.runId, ActionOf(o)); key in s.ledger && s.ledger[key] == entry
    requires entry.result.Deleted? && forall i | i in entry.result.ids :: i !in s.world.table.rows
    ensures Leads(true, s, events, t, 10)
    ensures At(t, End, t.checkpoint.state, s.world, s.ledger) && t.checkpoint.state.status == Some(COMPLETED)
    ensures t.checkpoint.state.action == Some(ActionOf(o))
  {
    var e1, m := Diagnosing(true, s, o);
    DeleteIsHigh(m.checkpoint.state, o, kind);
    DeleteParses(ActionOf(o), kind, o.params);
    var e2, u := ApprovedCycle(m, o, Outcome(s.world, s.ledger, entry, false));
    Chain(true, s, e1, m, 1, e2, u, 7);
    ReplayVerifies(s.world, ActionOf(o), kind, entry.result.kind, entry.result.ids);
    var e3, v := VerifiedAndCompleted(u, o);
    Chain(true, s, e1 + e2, u, 8, e3, v, 2);
    events, t := e1 + e2 + e3, v;
  }

  lemma VerifiedAndCompleted(s: Sys, o: Oracle) returns (events: seq<Event>, t: Sys)
    requires s.checkpoint.next == Verify && s.checkpoint.state.action.Some? && s.checkpoint.state.result.Some?
    requires VerifyAction(s.world, s.checkpoint.state.action.value, s.checkpoint.state.result.value) == Some(true)
    ensures Leads(true, s, events, t, 2)
    ensures At(t, End, t.checkpoint.state, s.world, s.ledger)
    ensures t.checkpoint.state.status == Some(COMPLETED) && t.checkpoint.state.action == s.checkpoint.state.action
  {
    var e1, m := Verifying(true, s, o, true);
    var e2, u := Ending(true, m, o);
    Chain(true, s, e1, m, 1, e2, u, 1);
    events, t := e1 + e2, u;
  }

  lemma OtherKindStays(table: Table, target: string, kind: string)
    requires target != kind
    ensures var ids := IdsIn(ByKind(table, Some(target), NO_LIMIT));
      && IdsOfKind(Delete(table, ids).rows, kind) == IdsOfKind(table.rows, kind)
      && forall i | i in ids :: i !in Delete(table, ids).rows
  {
    DeletesWhatWasSeen(table, target);
  }

  /** An edited action really takes another run's key. In run `run` a human edits a proposed delete of `kind` to the
      delete of "delete_records:kind"; it is approved, revalidated, executed. The run named
      "run:delete_records" then proposes the valid delete of `kind`, has it approved, and completes: its
      execution was a replay of the other run's entry, and every row of the kind is still there. */
  lemma EditTakesAnothersKey(run: string, w: World, o: Oracle, o2: Oracle, kind: string)
    returns (e1: seq<Event>, t1: Sys, e2: seq<Event>, t2: Sys)
    requires Gather(w).Some? && ProposesDelete(o, kind) && ProposesDelete(o2, kind)
    requires o.decision == Edited && o.edited == Some(DeleteOf(DeleteOf(kind)))
    requires o2.decision == Approved && o2.edited.None?
    ensures var run2 := Join(run, ToolName(Tool.DeleteRecords));
      var s1 := Sys(Checkpoint(Diagnose, NewThread(run)), w, map[], [], []);
      var s2 := Sys(Checkpoint(Diagnose, NewThread(run2)), t1.world, t1.ledger, [], []);
      && run2 != run && Leads(true, s1, e1, t1, 8) && Leads(true, s2, e2, t2, 10)
      && t2.checkpoint.next == End && t2.checkpoint.state.status == Some(COMPLETED)
      && t2.checkpoint.state.action == Some(DeleteOf(kind))
      && t2.world == t1.world && IdsOfKind(t2.world.table.rows, kind) == IdsOfKind(w.table.rows, kind)
  {
    var run2, a := Join(run, ToolName(Tool.DeleteRecords)), DeleteOf(DeleteOf(kind));
    EditedKeysCanCollide(run, kind);
    var s1 := Sys(Checkpoint(Diagnose, NewThread(run)), w, map[], [], []);
    e1, t1 := EditExecutes(s1, o, kind, a, DeleteOf(kind));
    OtherKindStays(w.table, DeleteOf(kind), kind);
    StillGathers(w, t1.world);
    var s2 := Sys(Checkpoint(Diagnose, NewThread(run2)), t1.world, t1.ledger, [], []);
    e2, t2 := DeleteReplayed(s2, o2, kind, t1.ledger[Key(run, a)]);
  }

  lemma StillGathers(w: World, v: World)
    requires Gather(w).Some? && v.services == w.services
    ensures Gather(v).Some?
  {
  }
}
