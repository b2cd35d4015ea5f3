/** The append-only audit store kept in memory (src/audit/store.py), shared by all runs. */
module AuditStores {
  import opened Durable

  /** The records of one run, oldest first. */
  function OfRun(records: seq<LogRecord>, runId: string): seq<LogRecord> {
    if records == [] then []
    else
      var last := records[|records| - 1];
      OfRun(records[..|records| - 1], runId) + (if last.runId == runId then [last] else [])
  }

  /** A record shows up in the log of its own run, at the end, and in no other. */
  lemma OfRunAppend(records: seq<LogRecord>, entry: LogRecord, runId: string)
    ensures OfRun(records + [entry], runId) == OfRun(records, runId) + (if entry.runId == runId then [entry] else [])
  {
    assert (records + [entry])[..|records|] == records;
  }

  class InMemoryAuditStore {
    var records: seq<LogRecord>

    constructor ()
      ensures records == []
    {
      records := [];
    }

    method Record(entry: LogRecord)
      modifies this
      ensures records == old(records) + [entry]
      ensures forall r :: OfRun(records, r) == OfRun(old(records), r) + (if entry.runId == r then [entry] else [])
    {
      ghost var before := records;
      records := records + [entry];
      forall r
        ensures OfRun(records, r) == OfRun(before, r) + (if entry.runId == r then [entry] else [])
      {
        OfRunAppend(before, entry, r);
      }
    }

    method GetRun(runId: string) returns (log: seq<LogRecord>)
      ensures log == OfRun(records, runId)
    {
      log := [];
      for k := 0 to |records|
        invariant log == OfRun(records[..k], runId)
      {
        OfRunAppend(records[..k], records[k], runId);
        assert records[..k + 1] == records[..k] + [records[k]];
        if records[k].runId == runId {
          log := log + [records[k]];
        }
      }
      assert records[..|records|] == records;
    }
  }
}
