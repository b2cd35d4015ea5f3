/** The HTTP endpoints that drive runs and keep the registry (src/api/main.py). Calls on one run do not overlap. */
module Api {
  import opened Options
  import opened ToolContexts
  import opened Workflow
  import opened Durable
  import opened AuditStores
  import opened Engine
  import opened RunRegistries

  /** The response of `submit_decision`: 404, 409, an exception, or the new status. */
  datatype Response = UnknownRun | NotAwaiting(status: Option<Status>) | Failed | Updated(row: RunRow)

  class App {
    const revalidating: bool
    const context: ToolContext
    const audit: InMemoryAuditStore
    const registry: InMemoryRunRegistry
    var threads: map<string, GraphThread>

    ghost function Objects(): set<object>
      reads this
    {
      {registry, audit, context.store, context.records} + context.Services() + (set r | r in threads :: threads[r])
    }

    ghost predicate Valid()
      reads this, Objects()
    {
      && context.Valid() && registry.Valid()
      && registry.rows.Keys <= threads.Keys
      && forall r | r in threads :: Ours(r, threads[r])
    }

    /** The checkpointer's thread of run `r`. */
    ghost predicate Ours(r: string, t: GraphThread)
      reads t
    {
      t.runId == r && t.revalidating == revalidating && t.context == context && t.audit == audit && t.Valid()
    }

    ghost predicate Suspended(r: string)
      reads this, Objects()
    {
      r in threads && threads[r].checkpoint.next == AwaitApproval
    }

    /** The registry row of `r` is what its thread holds, and the thread is at rest. */
    ghost predicate Current(r: string)
      reads this, Objects()
    {
      && r in threads && r in registry.rows
      && AtRest(threads[r].checkpoint.next) && RowShows(registry.rows[r], threads[r].checkpoint.state)
    }

    ghost predicate Synced()
      reads this, Objects()
    {
      registry.rows.Keys == threads.Keys && forall r | r in threads :: Current(r)
    }

    /** Every run but `r` is current. */
    ghost predicate SyncedBut(r: string)
      reads this, Objects()
    {
      registry.rows.Keys + {r} == threads.Keys && forall q | q in threads && q != r :: Current(q)
    }

    /** Where `start_workflow` begins: back at START if the run is known, or with a new thread. */
    ghost function Begins(runId: string): Sys
      requires Valid()
      reads this, Objects()
    {
      if runId in threads then
        assert Ours(runId, threads[runId]);
        Step(revalidating, threads[runId].TheSys(), Event.StartAgain)
      else Sys(Checkpoint(Diagnose, Workflow.NewThread(runId)), context.TheWorld(), context.store.rows,
               OfRun(audit.records, runId), [])
    }

    /** No thread but that of `runId` was replaced or moved. */
    twostate predicate OthersKept(runId: string)
      reads this, Objects()
    {
      forall r | r in old(threads) && r != runId ::
        r in threads && threads[r] == old(threads[r]) && threads[r].checkpoint == old(threads[r].checkpoint)
    }

    /** The rows of all other runs stay current. */
    twostate lemma StillSynced(runId: string)
      requires registry.rows == old(registry.rows) && OthersKept(runId)
      requires threads.Keys == old(threads.Keys) + {runId}
      ensures old(Synced()) || old(SyncedBut(runId)) ==> SyncedBut(runId)
    {
      if old(Synced()) || old(SyncedBut(runId)) {
        forall q | q in threads && q != runId
          ensures Current(q)
        {
          assert old(Current(q));
        }
      }
    }

    constructor (revalidating: bool, context: ToolContext, audit: InMemoryAuditStore, registry: InMemoryRunRegistry)
      requires context.Valid() && registry.Valid() && registry.rows == map[]
      ensures Valid() && Synced() && threads == map[]
      ensures this.context == context && this.audit == audit && this.registry == registry
        && this.revalidating == revalidating
    {
      this.revalidating, this.context, this.audit, this.registry := revalidating, context, audit, registry;
      threads := map[];
    }

    method SyncRegistry(t: GraphThread) returns (row: RunRow)
      requires Valid() && t.runId in threads && threads[t.runId] == t && AtRest(t.checkpoint.next)
      modifies registry
      ensures Valid() && Current(t.runId)
      ensures registry.rows == old(registry.rows)[t.runId := row] && t.TheSys() == old(t.TheSys())
      ensures forall r | r in threads :: threads[r].checkpoint == old(threads[r].checkpoint)
      ensures old(SyncedBut(t.runId)) ==> Synced()
    {
      assert Ours(t.runId, t) && registry !in t.Sandbox();
      row := ToResponse(t.checkpoint.state);
      registry.Upsert(row);
      t.Untouched();
    }

    /** A thread the checkpointer does not know yet. */
    method NewThread(runId: string) returns (t: GraphThread)
      requires Valid() && runId !in threads
      modifies this
      ensures Valid() && threads == old(threads)[runId := t] && fresh(t) && t.runId == runId
      ensures t.TheSys() == old(Begins(runId))
      ensures OthersKept(runId)
      ensures old(Synced()) ==> SyncedBut(runId)
    {
      t := new GraphThread(runId, revalidating, context, audit);
      threads := threads[runId := t];
      context.SameWorld();
      StillSynced(runId);
    }

    /** A known thread, set back to START. */
    method OldThread(runId: string) returns (t: GraphThread)
      requires Valid() && runId in threads
      modifies threads[runId]
      ensures Valid() && threads == old(threads) && t == threads[runId] && t.runId == runId
      ensures t.TheSys() == old(Begins(runId))
      ensures OthersKept(runId)
      ensures old(Synced()) ==> SyncedBut(runId)
    {
      t := threads[runId];
      assert Ours(runId, t);
      t.StartAgain();
      StillSynced(runId);
    }

    /** Drives one thread; the others and the registry stay as they are. */
    method DriveThread(t: GraphThread, answers: Answers) returns (how: Invocation, ghost k: nat)
      requires Valid() && t.runId in threads && threads[t.runId] == t
      modifies t, audit, context.store, context.records, context.Services()
      ensures Valid()
      ensures how != Raised ==> AtRest(t.checkpoint.next)
      ensures Driven(revalidating, old(t.TheSys()), answers, k, t.TheSys(), how == Raised)
      ensures OthersKept(t.runId)
      ensures old(SyncedBut(t.runId)) ==> SyncedBut(t.runId)
    {
      how, k := t.DriveToRest(answers);
      StillSynced(t.runId);
    }

    /** `start_workflow`. */
    method StartWorkflow(runId: string, answers: Answers) returns (t: GraphThread, how: Invocation, ghost k: nat)
      requires Valid()
      modifies this, Objects() - {registry}
      ensures Valid() && threads == old(threads)[runId := t] && t.runId == runId
      ensures runId in old(threads) ==> t == old(threads[runId])
      ensures OthersKept(runId)
      ensures how != Raised ==> AtRest(t.checkpoint.next)
      ensures Driven(revalidating, old(Begins(runId)), answers, k, t.TheSys(), how == Raised)
      ensures old(Synced()) ==> SyncedBut(runId)
    {
      ghost var s := Begins(runId);
      if runId in threads {
        t := OldThread(runId);
        assert threads[runId := t] == threads;
      } else {
        t := NewThread(runId);
      }
      assert t.TheSys() == s;
      how, k := DriveThread(t, answers);
    }

    method ResumeThread(t: GraphThread, answers: Answers) returns (how: Invocation, ghost k: nat)
      requires Valid() && t.runId in threads && threads[t.runId] == t && t.checkpoint.next == AwaitApproval
      modifies t, audit, context.store, context.records, context.Services()
      ensures Valid()
      ensures how != Raised ==> AtRest(t.checkpoint.next)
      ensures Driven(revalidating, old(t.TheSys()), answers, k, t.TheSys(), how == Raised)
      ensures OthersKept(t.runId)
      ensures old(SyncedBut(t.runId)) ==> SyncedBut(t.runId)
    {
      how, k := t.ResumeToRest(answers);
      StillSynced(t.runId);
    }

    /** `create_run`: a new thread, or an existing one driven again from START through `k` node runs. `None` if the
        last of them raises; the registry is then left as it was. */
    method CreateRun(runId: string, answers: Answers) returns (response: Option<RunRow>, ghost k: nat)
      requires Valid()
      modifies this, Objects()
      ensures Valid() && threads.Keys == old(threads.Keys) + {runId}
      ensures OthersKept(runId)
      ensures Driven(revalidating, old(Begins(runId)), answers, k, threads[runId].TheSys(), response.None?)
      ensures response.None? ==> registry.rows == old(registry.rows)
      ensures response.Some? ==> Current(runId) && registry.rows == old(registry.rows)[runId := response.value]
      ensures old(Synced()) && response.Some? ==> Synced()
    {
      var t, how;
      t, how, k := StartWorkflow(runId, answers);
      if how == Raised {
        return None, k;
      }
      var row := SyncRegistry(t);
      response := Some(row);
    }

    method GetRun(runId: string) returns (row: Option<RunRow>)
      ensures row == if runId in registry.rows then Some(registry.rows[runId]) else None
    {
      row := registry.Get(runId);
    }

    /** Resumes a suspended run and records where it came to rest. */
    method ResumeAndSync(runId: string, answers: Answers) returns (response: Response, ghost k: nat)
      requires Valid() && Suspended(runId)
      modifies Objects()
      ensures Valid() && threads == old(threads) && OthersKept(runId)
      ensures response.Failed? || response.Updated?
      ensures Driven(revalidating, old(threads[runId].TheSys()), answers, k, threads[runId].TheSys(), response.Failed?)
      ensures !response.Updated? ==> registry.rows == old(registry.rows)
      ensures response.Updated? ==> Current(runId) && registry.rows == old(registry.rows)[runId := response.row]
      ensures old(SyncedBut(runId)) && !response.Failed? ==> Synced()
    {
      var t := threads[runId];
      assert Ours(runId, t);
      var how;
      how, k := ResumeThread(t, answers);
      if how == Raised {
        return Failed, k;
      }
      var row := SyncRegistry(t);
      response := Updated(row);
    }

    /** What `submit_decision` answers without touching the run: 404 without a row, 409 unless it awaits approval. */
    method Refuse(runId: string) returns (refusal: Option<Response>)
      ensures refusal ==
        if runId !in registry.rows then Some(UnknownRun)
        else if registry.rows[runId].status != Some(AWAITING_APPROVAL) then
          Some(NotAwaiting(registry.rows[runId].status))
        else None
    {
      var existing := registry.Get(runId);
      if existing.None? {
        return Some(UnknownRun);
      }
      if existing.value.status != Some(AWAITING_APPROVAL) {
        return Some(NotAwaiting(existing.value.status));
      }
      refusal := None;
    }

    /** `submit_decision`, resuming through `k` node runs. A row awaiting approval must be that of a suspended run. */
    method SubmitDecision(runId: string, answers: Answers) returns (response: Response, ghost k: nat)
      requires Valid()
      requires runId in registry.rows && IsPending(registry.rows[runId]) ==> Suspended(runId)
      modifies Objects()
      ensures Valid() && threads == old(threads) && OthersKept(runId)
      ensures response == UnknownRun <==> runId !in old(registry.rows)
      ensures response.NotAwaiting? <==> runId in old(registry.rows) && !IsPending(old(registry.rows)[runId])
      ensures response.UnknownRun? || response.NotAwaiting? ==> runId in threads ==> unchanged(threads[runId])
      ensures response.Updated? || response.Failed? ==>
        Driven(revalidating, old(threads[runId].TheSys()), answers, k, threads[runId].TheSys(), response.Failed?)
      ensures !response.Updated? ==> registry.rows == old(registry.rows)
      ensures response.Updated? ==> Current(runId) && registry.rows == old(registry.rows)[runId := response.row]
      ensures old(Synced()) && !response.Failed? ==> Synced()
    {
      ghost var s := if Suspended(runId) then Some(threads[runId].TheSys()) else None;
      var refusal := Refuse(runId);
      if refusal.Some? {
        return refusal.value, 0;
      }
      assert s == Some(threads[runId].TheSys());
      SyncedLeavesOne(runId);
      response, k := ResumeAndSync(runId, answers);
    }

    lemma SyncedLeavesOne(runId: string)
      requires runId in threads
      ensures Synced() ==> SyncedBut(runId)
    {
    }

    /** While every row is current, the 409 answers are exactly those for runs that are not suspended. */
    lemma PendingIsSuspended(runId: string)
      requires Valid() && Synced()
      ensures runId in registry.rows && IsPending(registry.rows[runId]) <==> Suspended(runId)
    {
      if runId in threads {
        assert Current(runId) && Ours(runId, threads[runId]);
      }
    }

    /** The approval queue is exactly the set of suspended runs, each listed once. */
    method PendingApproval() returns (rows: seq<RunRow>)
      requires Valid() && Synced()
      ensures forall r :: (exists k :: 0 <= k < |rows| && rows[k].runId == r) <==> Suspended(r)
      ensures forall k :: 0 <= k < |rows| ==> rows[k].runId in threads
      ensures forall i, j :: 0 <= i < j < |rows| ==> rows[i].runId != rows[j].runId
      ensures forall k :: 0 <= k < |rows| ==> RowShows(rows[k], threads[rows[k].runId].checkpoint.state)
    {
      rows := registry.ListPendingApproval();
      forall r | Suspended(r)
        ensures exists k :: 0 <= k < |rows| && rows[k].runId == r
      {
        assert Current(r) && registry.rows[r] in rows;
        var k :| 0 <= k < |rows| && rows[k] == registry.rows[r];
        assert rows[k].runId == r;
      }
      forall k | 0 <= k < |rows|
        ensures Suspended(rows[k].runId) && RowShows(rows[k], threads[rows[k].runId].checkpoint.state)
      {
        assert rows[k] in rows && Current(rows[k].runId);
      }
    }
  }
}
