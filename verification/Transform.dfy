/** The value-level pieces of the bronze-to-silver job: which objects it takes and what it reads. */
module Transform {
  import opened Base
  import opened Observations
  import opened KeyFlattening
  import Warehouse

  /** The listed keys that the manifest does not hold yet, in listing order. */
  function Unprocessed(all: seq<string>, processed: set<string>): seq<string> {
    if all == [] then []
    else
      var init, last := all[..|all| - 1], all[|all| - 1];
      Unprocessed(init, processed) + if last in processed then [] else [last]
  }

  lemma {:induction false} UnprocessedKeys(all: seq<string>, processed: set<string>)
    ensures forall k :: k in Unprocessed(all, processed) <==> k in all && k !in processed
    ensures NoDup(all) ==> NoDup(Unprocessed(all, processed))
  {
    if all != [] {
      var init, last := all[..|all| - 1], all[|all| - 1];
      UnprocessedKeys(init, processed);
      assert all == init + [last];
    }
  }

  /** Local files by name: the contents of the downloaded objects. */
  type Files = map<string, seq<Row>>

  predicate AllFetched(objects: seq<string>, files: Files) {
    forall k | k in objects :: Flatten(k) in files
  }

  /** What Spark reads: the local file of each object, one after the other. */
  function Frame(objects: seq<string>, files: Files): seq<Row>
    requires AllFetched(objects, files)
  {
    if objects == [] then []
    else
      assert objects[|objects| - 1] in objects;
      Frame(objects[..|objects| - 1], files) + files[Flatten(objects[|objects| - 1])]
  }

  lemma {:induction false} FrameRows(objects: seq<string>, files: Files, x: Row)
    requires AllFetched(objects, files)
    ensures x in Frame(objects, files) <==> exists k :: k in objects && x in files[Flatten(k)]
  {
    if objects != [] {
      var init, last := objects[..|objects| - 1], objects[|objects| - 1];
      assert last in objects;
      FrameRows(init, files, x);
      assert objects == init + [last];
    }
  }

  lemma {:induction false} FrameIds(objects: seq<string>, files: Files, id: EventId)
    requires AllFetched(objects, files)
    ensures id in Ids(Frame(objects, files)) <==> exists k :: k in objects && id in Ids(files[Flatten(k)])
  {
    if objects != [] {
      var init, last := objects[..|objects| - 1], objects[|objects| - 1];
      assert last in objects;
      FrameIds(init, files, id);
      IdsConcat(Frame(init, files), files[Flatten(last)]);
      assert objects == init + [last];
    }
  }

  /** The manifest rows of a load: each object with the row count of its local file. */
  function Records(objects: seq<string>, files: Files, etags: map<string, string>,
                   runId: string): seq<Warehouse.ObjectRecord>
    requires AllFetched(objects, files)
  {
    if objects == [] then []
    else
      var last := objects[|objects| - 1];
      assert last in objects;
      Records(objects[..|objects| - 1], files, etags, runId)
      + [Warehouse.ObjectRecord(last, if last in etags then etags[last] else "", runId, |files[Flatten(last)]|)]
  }

  function RowCountSum(records: seq<Warehouse.ObjectRecord>): nat {
    if records == [] then 0 else RowCountSum(records[..|records| - 1]) + records[|records| - 1].rowCount
  }

  lemma {:induction false} RecordsKeys(objects: seq<string>, files: Files, etags: map<string, string>, runId: string)
    requires AllFetched(objects, files)
    ensures |Records(objects, files, etags, runId)| == |objects|
    ensures forall i | 0 <= i < |objects| :: Records(objects, files, etags, runId)[i].key == objects[i]
  {
    if objects != [] {
      RecordsKeys(objects[..|objects| - 1], files, etags, runId);
    }
  }

  /** Each manifest row tells its object's key, etag and own row count, and the run that loads it. */
  lemma {:induction false} RecordsShow(objects: seq<string>, files: Files, etags: map<string, string>, runId: string,
                                       i: nat)
    requires AllFetched(objects, files) && i < |objects|
    ensures i < |Records(objects, files, etags, runId)|
    ensures var r := Records(objects, files, etags, runId)[i];
            && r.key == objects[i] && r.runId == runId && (objects[i] in etags ==> r.etag == etags[objects[i]])
            && Flatten(objects[i]) in files && r.rowCount == |files[Flatten(objects[i])]|
  {
    RecordsKeys(objects, files, etags, runId);
    assert objects[i] in objects;
    var n := |objects| - 1;
    if i < n {
      RecordsKeys(objects[..n], files, etags, runId);
      RecordsShow(objects[..n], files, etags, runId, i);
    }
  }

  /** The row counts of a load's manifest rows add up to the rows it read. */
  lemma {:induction false} RecordsTotal(objects: seq<string>, files: Files, etags: map<string, string>, runId: string)
    requires AllFetched(objects, files)
    ensures RowCountSum(Records(objects, files, etags, runId)) == |Frame(objects, files)|
  {
    if objects != [] {
      var records := Records(objects, files, etags, runId);
      RecordsTotal(objects[..|objects| - 1], files, etags, runId);
      assert records[..|records| - 1] == Records(objects[..|objects| - 1], files, etags, runId);
    }
  }

  /** A load's manifest rows name exactly the objects it read. */
  lemma RecordsReconcile(objects: seq<string>, files: Files, etags: map<string, string>, runId: string)
    requires AllFetched(objects, files)
    ensures Warehouse.Keys(Records(objects, files, etags, runId)) == Elements(objects)
  {
    var records := Records(objects, files, etags, runId);
    RecordsKeys(objects, files, etags, runId);
    forall k | k in Elements(objects)
      ensures k in Warehouse.Keys(records)
    {
      var i :| 0 <= i < |objects| && objects[i] == k;
      assert records[i] in records;
    }
    forall k | k in Warehouse.Keys(records)
      ensures k in Elements(objects)
    {
      var r :| r in records && r.key == k;
      var i :| 0 <= i < |records| && records[i] == r;
      assert objects[i] in objects;
    }
  }

  // ---- What the objects hold --------------------------------------------------------------

  /** The contents of these objects, one after the other. */
  ghost function Contents(objects: map<string, seq<Row>>, keys: seq<string>): seq<Row>
    requires forall k | k in keys :: k in objects
  {
    if keys == [] then []
    else
      assert keys[|keys| - 1] in keys;
      Contents(objects, keys[..|keys| - 1]) + objects[keys[|keys| - 1]]
  }

  lemma {:induction false} FrameOfFiles(objects: map<string, seq<Row>>, keys: seq<string>, files: Files)
    requires AllFetched(keys, files)
    requires forall k | k in keys :: k in objects && files[Flatten(k)] == objects[k]
    ensures Frame(keys, files) == Contents(objects, keys)
  {
    if keys != [] {
      assert keys[|keys| - 1] in keys;
      FrameOfFiles(objects, keys[..|keys| - 1], files);
    }
  }

  lemma {:induction false} ContentsStay(a: map<string, seq<Row>>, b: map<string, seq<Row>>, keys: seq<string>)
    requires forall k | k in keys :: k in a && k in b && a[k] == b[k]
    ensures Contents(a, keys) == Contents(b, keys)
  {
    if keys != [] {
      assert keys[|keys| - 1] in keys;
      ContentsStay(a, b, keys[..|keys| - 1]);
    }
  }

  lemma {:induction false} ContentsRows(objects: map<string, seq<Row>>, keys: seq<string>, x: Row)
    requires forall k | k in keys :: k in objects
    ensures x in Contents(objects, keys) <==> exists k :: k in keys && x in objects[k]
  {
    if keys != [] {
      var init, last := keys[..|keys| - 1], keys[|keys| - 1];
      assert last in keys && keys == init + [last];
      ContentsRows(objects, init, x);
    }
  }

  function LateCount(rows: seq<Row>): nat {
    if rows == [] then 0
    else LateCount(rows[..|rows| - 1]) + if IsLate(rows[|rows| - 1]) then 1 else 0
  }

  ghost function LateIds(rows: seq<Row>): set<EventId> {
    set r | r in rows && IsLate(r) :: r.eventId
  }

  /** Rows with distinct identities have as many late rows as late identities. */
  lemma {:induction false} LateCountIsIds(rows: seq<Row>)
    requires DistinctIds(rows)
    ensures LateCount(rows) == |LateIds(rows)|
  {
    if rows == [] {
      assert LateIds(rows) == {};
    } else {
      var init, last := rows[..|rows| - 1], rows[|rows| - 1];
      LateCountIsIds(init);
      assert rows == init + [last];
      assert last.eventId !in LateIds(init);
      LateIdsSnoc(init, last);
    }
  }

  lemma LateIdsSnoc(init: seq<Row>, last: Row)
    ensures LateIds(init + [last]) == LateIds(init) + if IsLate(last) then {last.eventId} else {}
  {
    var rows := init + [last];
    assert last in rows;
    forall id | id in LateIds(init)
      ensures id in LateIds(rows)
    {
      var r :| r in init && IsLate(r) && r.eventId == id;
      assert r in rows;
    }
  }
}
