/** The "latest known status" table behind the API (src/api/run_registry.py), a dict in insertion order. */
module RunRegistries {
  import opened Options
  import opened Observations
  import opened Workflow

  /** `RunStatusResponse`, as far as the model carries its fields; a missing status reads "UNKNOWN". */
  datatype RunRow = RunRow(
    runId: string, status: Option<Status>, diagnosis: Option<string>, action: Option<string>, tier: Option<Tier>,
    finalState: Option<Status>)

  /** `_to_response`. */
  function ToResponse(s: AgentState): RunRow { RunRow(s.runId, s.status, s.diagnosis, s.action, s.tier, s.finalState) }

  /** A row holds what the channels hold: run id, status, diagnosis, proposed action, final tier and final state. */
  ghost predicate RowShows(row: RunRow, s: AgentState) {
    && row.runId == s.runId && row.status == s.status && row.diagnosis == s.diagnosis
    && row.action == s.action && row.tier == s.tier && row.finalState == s.finalState
  }

  predicate IsPending(row: RunRow) { row.status == Some(AWAITING_APPROVAL) }

  function PendingOf(order: seq<string>, rows: map<string, RunRow>): seq<RunRow>
    requires forall r | r in order :: r in rows
  {
    if order == [] then []
    else
      var last := rows[order[|order| - 1]];
      PendingOf(order[..|order| - 1], rows) + (if IsPending(last) then [last] else [])
  }

  /** The list holds the rows that await approval, no other, and none twice. */
  lemma {:induction false} PendingExactly(order: seq<string>, rows: map<string, RunRow>)
    requires forall r | r in order :: r in rows && rows[r].runId == r
    requires forall i, j :: 0 <= i < j < |order| ==> order[i] != order[j]
    ensures var pending := PendingOf(order, rows);
      && (forall row :: row in pending <==> row.runId in order && rows[row.runId] == row && IsPending(row))
      && (forall i, j :: 0 <= i < j < |pending| ==> pending[i].runId != pending[j].runId)
  {
    if order != [] {
      var n := |order| - 1;
      PendingExactly(order[..n], rows);
      var front := PendingOf(order[..n], rows);
      assert forall r :: r in order <==> r in order[..n] || r == order[n];
      assert forall i :: 0 <= i < |front| ==> front[i] in front;
      assert order[n] !in order[..n];
    }
  }

  class InMemoryRunRegistry {
    var order: seq<string>
    var rows: map<string, RunRow>

    ghost predicate Valid()
      reads this
    {
      && (forall r :: r in order <==> r in rows)
      && (forall i, j :: 0 <= i < j < |order| ==> order[i] != order[j])
      && (forall r | r in rows :: rows[r].runId == r)
    }

    constructor ()
      ensures Valid() && rows == map[]
    {
      order, rows := [], map[];
    }

    method Upsert(row: RunRow)
      requires Valid()
      modifies this
      ensures Valid() && rows == old(rows)[row.runId := row]
      ensures order == if row.runId in old(rows) then old(order) else old(order) + [row.runId]
    {
      if row.runId !in rows {
        order := order + [row.runId];
      }
      rows := rows[row.runId := row];
    }

    method Get(runId: string) returns (row: Option<RunRow>)
      ensures row == if runId in rows then Some(rows[runId]) else None
    {
      row := if runId in rows then Some(rows[runId]) else None;
    }

    method ListPendingApproval() returns (pending: seq<RunRow>)
      requires Valid()
      ensures forall row :: row in pending <==> row.runId in rows && rows[row.runId] == row && IsPending(row)
      ensures forall i, j :: 0 <= i < j < |pending| ==> pending[i].runId != pending[j].runId
    {
      pending := [];
      for k := 0 to |order|
        invariant pending == PendingOf(order[..k], rows)
      {
        assert order[..k + 1][..k] == order[..k];
        if IsPending(rows[order[k]]) {
          pending := pending + [rows[order[k]]];
        }
      }
      assert order[..|order|] == order;
      PendingExactly(order, rows);
    }
  }
}
