/** The PostgreSQL side: the three tables and the statements the pipeline sends them. */
module PostgresDatabase {
  import opened Base
  import opened Observations
  import opened Warehouse
  import opened RunLedger

  class Database {
    var observations: Table
    var manifest: Manifest
    var runs: Runs

    /** Which of these objects have been loaded before. */
    method ProcessedObjectKeys(keys: seq<string>) returns (processed: set<string>)
      ensures forall k :: k in processed <==> k in keys && k in manifest
    {
      processed := {};
      for i := 0 to |keys|
        invariant forall k :: k in processed <==> k in keys[..i] && k in manifest
      {
        assert keys[..i + 1] == keys[..i] + [keys[i]];
        if keys[i] in manifest {
          processed := processed + {keys[i]};
        }
      }
      assert keys[..|keys|] == keys;
    }

    /** Inserts the run, or resets the ending of one that is there. */
    method StartPipelineRun(runId: string, now: int)
      modifies this`runs
      ensures ShowsStart(old(runs), runs, runId, now)
      ensures runs == StartRun(old(runs), runId, now)
    {
      StartShows(runs, runId, now);
      runs := StartRun(runs, runId, now);
    }

    /** Updates the run if it is there. */
    method FinishPipelineRun(runId: string, finish: Finish, now: int)
      modifies this`runs
      ensures ShowsFinish(old(runs), runs, runId, finish, now)
      ensures runs == FinishRun(old(runs), runId, finish, now)
    {
      FinishShows(runs, runId, finish, now);
      runs := FinishRun(runs, runId, finish, now);
    }

    /**
     One load: rows are staged, upserted and recorded with their objects in one transaction,
     stamped with the clock at its start. It commits exactly when the connection survives, no id
     is staged twice and every row meets the table's constraints; otherwise nothing changes.
     */
    method LoadTrafficRows(rows: seq<Row>, records: seq<ObjectRecord>, now: int, connectionLost: bool)
      returns (r: Result<nat>)
      modifies this`observations, this`manifest
      ensures r.Ok? <==> !connectionLost && DistinctIds(rows) && forall x | x in rows :: Checks(x)
      ensures r.Ok? ==> r.value == |rows|
      ensures observations == if r.Ok? then Upsert(old(observations), rows, now) else old(observations)
      ensures manifest == if r.Ok? then RecordObjects(old(manifest), records, now) else old(manifest)
      // What that means for a reader of the tables.
      ensures r.Ok? ==>
                && observations.Keys == old(observations.Keys) + Ids(rows)
                && (forall x | x in rows :: observations[x.eventId] == Stored(x, now))
                && (forall id | id in old(observations) && id !in Ids(rows) ::
                      observations[id] == old(observations)[id])
                && manifest.Keys == old(manifest.Keys) + Keys(records)
    {
      var staged, rowCount := [], 0;
      for i := 0 to |rows|
        invariant staged == rows[..i] && rowCount == i
      {
        staged := staged + [rows[i]];
        rowCount := rowCount + 1;
      }
      assert rows[..|rows|] == rows;
      if !DistinctIds(staged) {
        return Err("ON CONFLICT DO UPDATE command cannot affect row a second time");
      }
      if exists x :: x in staged && !Checks(x) {
        return Err("row violates a constraint");
      }
      if connectionLost {
        return Err("connection lost");
      }
      UpsertEffect(observations, rows, now);
      RecordEffect(manifest, records, now);
      UpsertStaged(staged, now);
      RecordLoaded(records, now);
      return Ok(rowCount);
    }

    /** INSERT ... ON CONFLICT (event_id) DO UPDATE, row by row. */
    method UpsertStaged(staged: seq<Row>, now: int)
      modifies this`observations
      ensures observations == Upsert(old(observations), staged, now)
    {
      for i := 0 to |staged|
        invariant observations == Upsert(old(observations), staged[..i], now)
      {
        assert staged[..i + 1][..i] == staged[..i];
        observations := observations[staged[i].eventId := Stored(staged[i], now)];
      }
      assert staged[..|staged|] == staged;
    }

    /** The manifest rows of a load, one after the other. */
    method RecordLoaded(records: seq<ObjectRecord>, now: int)
      modifies this`manifest
      ensures manifest == RecordObjects(old(manifest), records, now)
    {
      for i := 0 to |records|
        invariant manifest == RecordObjects(old(manifest), records[..i], now)
      {
        assert records[..i + 1][..i] == records[..i];
        var x := records[i];
        manifest := manifest[x.key := ManifestEntry(x.etag, x.runId, x.rowCount, now)];
      }
      assert records[..|records|] == records;
    }
  }
}
