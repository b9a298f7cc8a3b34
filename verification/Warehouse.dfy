/**
 The warehouse tables a load changes, as values: what one upsert transaction does to
 raw.traffic_observation and to ops.object_manifest, and what a whole history of loads leaves.
 */
module Warehouse {
  import opened Observations
  import opened Dedup

  /** A row of raw.traffic_observation: its columns and the NOW() of the transaction that wrote it. */
  datatype Stored = Stored(row: Row, loadedAt: int)

  /** A row of ops.object_manifest. */
  datatype ManifestEntry = ManifestEntry(etag: string, runId: string, rowCount: nat, processedAt: int)

  datatype ObjectRecord = ObjectRecord(key: string, etag: string, runId: string, rowCount: nat)

  type Table = map<EventId, Stored>

  type Manifest = map<string, ManifestEntry>

  /** INSERT ... ON CONFLICT (event_id) DO UPDATE, row after row, all stamped with one NOW(). */
  function Upsert(table: Table, rows: seq<Row>, now: int): Table {
    if rows == [] then table
    else
      var last := rows[|rows| - 1];
      Upsert(table, rows[..|rows| - 1], now)[last.eventId := Stored(last, now)]
  }

  function RecordObjects(manifest: Manifest, records: seq<ObjectRecord>, now: int): Manifest {
    if records == [] then manifest
    else
      var last := records[|records| - 1];
      RecordObjects(manifest, records[..|records| - 1], now)
        [last.key := ManifestEntry(last.etag, last.runId, last.rowCount, now)]
  }

  /** An upsert writes exactly its rows and leaves every other id alone. */
  lemma {:induction false} UpsertEffect(table: Table, rows: seq<Row>, now: int)
    requires DistinctIds(rows)
    ensures Upsert(table, rows, now).Keys == table.Keys + Ids(rows)
    ensures forall r | r in rows :: Upsert(table, rows, now)[r.eventId] == Stored(r, now)
    ensures forall id | id in table && id !in Ids(rows) :: Upsert(table, rows, now)[id] == table[id]
  {
    if rows == [] {
      assert Ids(rows) == {};
    } else {
      var init, last := rows[..|rows| - 1], rows[|rows| - 1];
      UpsertEffect(table, init, now);
      IdsSnoc(rows);
      var before := Upsert(table, init, now);
      assert Upsert(table, rows, now) == before[last.eventId := Stored(last, now)];
      forall r | r in rows
        ensures before[last.eventId := Stored(last, now)][r.eventId] == Stored(r, now)
      {
        var i :| 0 <= i < |rows| && rows[i] == r;
        if i < |rows| - 1 {
          assert r in init by { assert init[i] == r; }
          assert r.eventId != last.eventId;
        }
      }
    }
  }

  function Keys(records: seq<ObjectRecord>): set<string> {
    set r | r in records :: r.key
  }

  lemma KeysSnoc(records: seq<ObjectRecord>)
    requires records != []
    ensures Keys(records) == Keys(records[..|records| - 1]) + {records[|records| - 1].key}
  {
    var init, last := records[..|records| - 1], records[|records| - 1];
    assert records == init + [last];
    forall k | k in Keys(init)
      ensures k in Keys(records)
    {
      var r :| r in init && r.key == k;
      assert r in records;
    }
    assert last in records;
  }

  /** The record of its key that comes last. */
  ghost predicate LastOfKey(records: seq<ObjectRecord>, i: nat) {
    i < |records| && forall j | i < j < |records| :: records[j].key != records[i].key
  }

  function EntryOf(r: ObjectRecord, now: int): ManifestEntry {
    ManifestEntry(r.etag, r.runId, r.rowCount, now)
  }

  lemma {:induction false} LastRecordShown(manifest: Manifest, records: seq<ObjectRecord>, now: int, i: nat)
    requires LastOfKey(records, i)
    ensures records[i].key in RecordObjects(manifest, records, now)
    ensures RecordObjects(manifest, records, now)[records[i].key] == EntryOf(records[i], now)
  {
    var n := |records| - 1;
    if i < n {
      assert records[n].key != records[i].key;
      assert LastOfKey(records[..n], i);
      LastRecordShown(manifest, records[..n], now, i);
    }
  }

  lemma {:induction false} RecordEffect(manifest: Manifest, records: seq<ObjectRecord>, now: int)
    ensures RecordObjects(manifest, records, now).Keys == manifest.Keys + Keys(records)
    ensures forall k | k in manifest && k !in Keys(records) :: RecordObjects(manifest, records, now)[k] == manifest[k]
    ensures forall i: nat | LastOfKey(records, i) ::
              RecordObjects(manifest, records, now)[records[i].key] == EntryOf(records[i], now)
  {
    KeysRecorded(manifest, records, now);
    forall i: nat | LastOfKey(records, i)
      ensures RecordObjects(manifest, records, now)[records[i].key] == EntryOf(records[i], now)
    {
      LastRecordShown(manifest, records, now, i);
    }
  }

  lemma {:induction false} KeysRecorded(manifest: Manifest, records: seq<ObjectRecord>, now: int)
    ensures RecordObjects(manifest, records, now).Keys == manifest.Keys + Keys(records)
    ensures forall k | k in manifest && k !in Keys(records) :: RecordObjects(manifest, records, now)[k] == manifest[k]
  {
    if records == [] {
      assert Keys(records) == {};
    } else {
      KeysRecorded(manifest, records[..|records| - 1], now);
      KeysSnoc(records);
    }
  }

  // ---- Histories of loads ---------------------------------------------------------------

  /** One committed load: the rows Spark read, the row it kept per id, the transaction clock. */
  datatype Load = Load(frame: seq<Row>, latest: seq<Row>, at: int)

  ghost predicate ValidLoads(loads: seq<Load>) {
    forall i | 0 <= i < |loads| :: LatestPerId(loads[i].frame, loads[i].latest)
  }

  ghost function AfterLoads(table: Table, loads: seq<Load>): Table {
    if loads == [] then table
    else
      var last := loads[|loads| - 1];
      Upsert(AfterLoads(table, loads[..|loads| - 1]), last.latest, last.at)
  }

  ghost predicate Mentions(load: Load, id: EventId) {
    id in Ids(load.frame)
  }

  /** Load k is the last of the history that carries the id. */
  ghost predicate LastMention(loads: seq<Load>, id: EventId, k: nat) {
    && k < |loads|
    && Mentions(loads[k], id)
    && forall i | k < i < |loads| :: !Mentions(loads[i], id)
  }

  /**
   Last writer wins: what the warehouse holds for an id is the row the last load carrying that
   id kept, stamped with that load's clock. No earlier load and no earlier ingestion shows.
   */
  lemma {:induction false} LastLoadWins(table: Table, loads: seq<Load>, id: EventId, k: nat)
    requires ValidLoads(loads) && LastMention(loads, id, k)
    ensures id in AfterLoads(table, loads)
    ensures AfterLoads(table, loads)[id].loadedAt == loads[k].at
    ensures AfterLoads(table, loads)[id].row in loads[k].latest
    ensures AfterLoads(table, loads)[id].row.eventId == id
  {
    var init, last := loads[..|loads| - 1], loads[|loads| - 1];
    UpsertEffect(AfterLoads(table, init), last.latest, last.at);
    if k == |loads| - 1 {
      assert id in Ids(last.latest);
      var r :| r in last.latest && r.eventId == id;
      assert AfterLoads(table, loads)[r.eventId] == Stored(r, last.at);
    } else {
      assert !Mentions(last, id);
      LastLoadWins(table, init, id, k);
    }
  }

  /** Every row of the id that any load of the history read. */
  ghost predicate NoLaterThan(loads: seq<Load>, id: EventId, bound: int) {
    forall i, x | 0 <= i < |loads| && x in loads[i].frame && x.eventId == id :: x.ingestedAt <= bound
  }

  /**
   "The latest ingestion wins" is therefore not a law of the warehouse. It holds of an id
   exactly when the last load carrying the id read a row at least as late as every other row
   of it ever read.
   */
  lemma LatestIngestionShown(table: Table, loads: seq<Load>, id: EventId, k: nat)
    requires ValidLoads(loads) && LastMention(loads, id, k)
    ensures id in AfterLoads(table, loads)
    ensures NoLaterThan(loads, id, AfterLoads(table, loads)[id].row.ingestedAt) <==>
            exists x :: x in loads[k].frame && x.eventId == id && NoLaterThan(loads, id, x.ingestedAt)
  {
    LastLoadWins(table, loads, id, k);
    var shown := AfterLoads(table, loads)[id].row;
    assert shown in loads[k].frame;
    if exists x :: x in loads[k].frame && x.eventId == id && NoLaterThan(loads, id, x.ingestedAt) {
      var x :| x in loads[k].frame && x.eventId == id && NoLaterThan(loads, id, x.ingestedAt);
      assert x.ingestedAt <= shown.ingestedAt;
    }
  }

  /** An older copy of an event, loaded later, replaces the newer one. */
  lemma OlderCopyReplacesNewer(r: Row)
    ensures var newer, older := r.(ingestedAt := 2), r.(ingestedAt := 1);
            var loads := [Load([newer], [newer], 10), Load([older], [older], 11)];
            ValidLoads(loads) && AfterLoads(map[], loads) == map[r.eventId := Stored(older, 11)]
  {
    var newer, older := r.(ingestedAt := 2), r.(ingestedAt := 1);
    var loads := [Load([newer], [newer], 10), Load([older], [older], 11)];
    var id := r.eventId;
    assert LastMention(loads, id, 1) by { assert older in [older]; }
    LastLoadWins(map[], loads, id, 1);
    forall x | x in AfterLoads(map[], loads)
      ensures x == id
    {
      AfterLoadsKeys(map[], loads, x);
    }
  }

  /** The kept rows are no older than what the table holds of their ids. */
  ghost predicate NoneOlder(table: Table, latest: seq<Row>) {
    forall r | r in latest && r.eventId in table :: table[r.eventId].row.ingestedAt <= r.ingestedAt
  }

  /** No load brings a row older than what the warehouse holds at that moment. */
  ghost predicate InOrder(table: Table, loads: seq<Load>) {
    loads != [] ==>
      var init, last := loads[..|loads| - 1], loads[|loads| - 1];
      InOrder(table, init) && NoneOlder(AfterLoads(table, init), last.latest)
  }

  /**
   Loading batch by batch in order refines one deduplication of everything: each id shows the
   latest ingestion over the starting table and all rows ever read.
   */
  lemma {:induction false} InOrderLoadsShowLatest(table: Table, loads: seq<Load>, id: EventId)
    requires ValidLoads(loads) && InOrder(table, loads)
    requires id in AfterLoads(table, loads)
    ensures NoLaterThan(loads, id, AfterLoads(table, loads)[id].row.ingestedAt)
    ensures id in table ==> table[id].row.ingestedAt <= AfterLoads(table, loads)[id].row.ingestedAt
  {
    if loads != [] {
      var n := |loads| - 1;
      var init, last := loads[..n], loads[n];
      var before := AfterLoads(table, init);
      InOrderStep(before, last, id);
      if id in before {
        InOrderLoadsShowLatest(table, init, id);
      } else {
        NeverMentioned(table, init, id);
      }
      NoLaterSnoc(loads, id, before, AfterLoads(table, loads)[id].row.ingestedAt);
    }
  }

  lemma NoLaterSnoc(loads: seq<Load>, id: EventId, before: Table, shown: int)
    requires loads != []
    requires if id in before
             then NoLaterThan(loads[..|loads| - 1], id, before[id].row.ingestedAt) && before[id].row.ingestedAt <= shown
             else forall load | load in loads[..|loads| - 1] :: !Mentions(load, id)
    requires forall x | x in loads[|loads| - 1].frame && x.eventId == id :: x.ingestedAt <= shown
    ensures NoLaterThan(loads, id, shown)
  {
    var init := loads[..|loads| - 1];
    forall i, x | 0 <= i < |loads| && x in loads[i].frame && x.eventId == id
      ensures x.ingestedAt <= shown
    {
      if i < |loads| - 1 {
        assert init[i] in init && x in init[i].frame;
        assert Mentions(init[i], id);
      }
    }
  }

  lemma InOrderStep(before: Table, load: Load, id: EventId)
    requires LatestPerId(load.frame, load.latest)
    requires forall r | r in load.latest && r.eventId in before ::
               before[r.eventId].row.ingestedAt <= r.ingestedAt
    requires id in Upsert(before, load.latest, load.at)
    ensures id in before ==>
              before[id].row.ingestedAt <= Upsert(before, load.latest, load.at)[id].row.ingestedAt
    ensures forall x | x in load.frame && x.eventId == id ::
              x.ingestedAt <= Upsert(before, load.latest, load.at)[id].row.ingestedAt
    ensures id !in before ==> Mentions(load, id)
  {
    UpsertEffect(before, load.latest, load.at);
    if id in Ids(load.latest) {
      var r :| r in load.latest && r.eventId == id;
      assert Upsert(before, load.latest, load.at)[r.eventId] == Stored(r, load.at);
    } else {
      assert forall x | x in load.frame :: x.eventId in Ids(load.frame);
    }
  }

  lemma {:induction false} NeverMentioned(table: Table, loads: seq<Load>, id: EventId)
    requires ValidLoads(loads)
    requires id !in AfterLoads(table, loads)
    ensures id !in table
    ensures forall load | load in loads :: !Mentions(load, id)
  {
    if loads != [] {
      var n := |loads| - 1;
      UpsertEffect(AfterLoads(table, loads[..n]), loads[n].latest, loads[n].at);
      NeverMentioned(table, loads[..n], id);
      assert loads == loads[..n] + [loads[n]];
    }
  }

  ghost predicate Mentioned(loads: seq<Load>, id: EventId) {
    exists i :: 0 <= i < |loads| && Mentions(loads[i], id)
  }

  lemma MentionedSnoc(loads: seq<Load>, id: EventId)
    requires loads != []
    ensures Mentioned(loads, id) <==> Mentioned(loads[..|loads| - 1], id) || Mentions(loads[|loads| - 1], id)
  {
    var n := |loads| - 1;
    assert forall i | 0 <= i < n :: loads[..n][i] == loads[i];
  }

  lemma {:induction false} AfterLoadsKeys(table: Table, loads: seq<Load>, id: EventId)
    requires ValidLoads(loads)
    ensures id in AfterLoads(table, loads) <==>
            id in table || Mentioned(loads, id)
  {
    if loads != [] {
      var n := |loads| - 1;
      UpsertEffect(AfterLoads(table, loads[..n]), loads[n].latest, loads[n].at);
      AfterLoadsKeys(table, loads[..n], id);
      MentionedSnoc(loads, id);
    }
  }

  /** All rows the loads of a history read, one load after the other. */
  ghost function AllFrames(loads: seq<Load>): seq<Row> {
    if loads == [] then [] else AllFrames(loads[..|loads| - 1]) + loads[|loads| - 1].frame
  }

  lemma {:induction false} AllFramesRows(loads: seq<Load>, x: Row)
    ensures x in AllFrames(loads) <==> exists i :: 0 <= i < |loads| && x in loads[i].frame
  {
    if loads != [] {
      var n := |loads| - 1;
      AllFramesRows(loads[..n], x);
      assert forall i | 0 <= i < n :: loads[..n][i] == loads[i];
    }
  }

  lemma MentionedRows(loads: seq<Load>, id: EventId)
    ensures Mentioned(loads, id) <==> id in Ids(AllFrames(loads))
  {
    if Mentioned(loads, id) {
      var i :| 0 <= i < |loads| && Mentions(loads[i], id);
      var x :| x in loads[i].frame && x.eventId == id;
      AllFramesRows(loads, x);
    }
    if id in Ids(AllFrames(loads)) {
      var x :| x in AllFrames(loads) && x.eventId == id;
      AllFramesRows(loads, x);
    }
  }

  /** Whatever the warehouse shows of an id, some load read that very row. */
  lemma {:induction false} ShownWasRead(loads: seq<Load>, id: EventId)
    requires ValidLoads(loads) && id in AfterLoads(map[], loads)
    ensures AfterLoads(map[], loads)[id].row in AllFrames(loads)
    ensures AfterLoads(map[], loads)[id].row.eventId == id
  {
    var n := |loads| - 1;
    var before, last := AfterLoads(map[], loads[..n]), loads[n];
    UpsertEffect(before, last.latest, last.at);
    if id in Ids(last.latest) {
      var r :| r in last.latest && r.eventId == id;
      assert AfterLoads(map[], loads)[r.eventId] == Stored(r, last.at);
    } else {
      ShownWasRead(loads[..n], id);
    }
  }

  /**
   Batchwise loading refines one deduplication of everything: after any history of loads in order,
   the warehouse has exactly the ids a single deduplication of all rows ever read would keep, and
   shows of each the very ingestion time it would keep.
   */
  lemma LoadsRefineOneShot(loads: seq<Load>, one: seq<Row>)
    requires ValidLoads(loads) && InOrder(map[], loads) && LatestPerId(AllFrames(loads), one)
    ensures AfterLoads(map[], loads).Keys == Ids(one)
    ensures forall r | r in one ::
              && r.eventId in AfterLoads(map[], loads)
              && AfterLoads(map[], loads)[r.eventId].row.ingestedAt == r.ingestedAt
  {
    var table := AfterLoads(map[], loads);
    forall id
      ensures id in table <==> id in Ids(one)
    {
      AfterLoadsKeys(map[], loads, id);
      MentionedRows(loads, id);
    }
    forall r | r in one
      ensures r.eventId in table && table[r.eventId].row.ingestedAt == r.ingestedAt
    {
      assert r.eventId in Ids(one);
      SameIngestion(loads, one, r);
    }
  }

  lemma SameIngestion(loads: seq<Load>, one: seq<Row>, r: Row)
    requires ValidLoads(loads) && InOrder(map[], loads) && LatestPerId(AllFrames(loads), one)
    requires r in one && r.eventId in AfterLoads(map[], loads)
    ensures AfterLoads(map[], loads)[r.eventId].row.ingestedAt == r.ingestedAt
  {
    InOrderLoadsShowLatest(map[], loads, r.eventId);
    AllFramesRows(loads, r);
    ShownWasRead(loads, r.eventId);
  }

  /**
   One more load, seen before it runs: if the warehouse shows the latest ingestion of an id, it
   still does afterwards exactly when the load does not carry the id or keeps a row of it that is
   no older than the one shown. An id it did not hold is shown at its latest.
   */
  lemma OneMoreLoad(loads: seq<Load>, load: Load, id: EventId)
    requires ValidLoads(loads) && LatestPerId(load.frame, load.latest)
    ensures var before, after := AfterLoads(map[], loads), AfterLoads(map[], loads + [load]);
            && (id in before && NoLaterThan(loads, id, before[id].row.ingestedAt) ==>
                  (id in after && NoLaterThan(loads + [load], id, after[id].row.ingestedAt) <==>
                    !Mentions(load, id) || KeepsAsLate(load, id, before[id].row.ingestedAt)))
            && (id !in before && id in after ==> NoLaterThan(loads + [load], id, after[id].row.ingestedAt))
  {
    AfterOneMore(loads, load);
    if id in AfterLoads(map[], loads) {
      if NoLaterThan(loads, id, AfterLoads(map[], loads)[id].row.ingestedAt) {
        OneMoreOfKnown(loads, load, id);
      }
    } else if id in AfterLoads(map[], loads + [load]) {
      OneMoreOfNew(loads, load, id);
    }
  }

  /** The load keeps a row of the id ingested at that time or later. */
  ghost predicate KeepsAsLate(load: Load, id: EventId, ingestedAt: int) {
    exists r :: r in load.latest && r.eventId == id && ingestedAt <= r.ingestedAt
  }

  lemma AfterOneMore(loads: seq<Load>, load: Load)
    ensures AfterLoads(map[], loads + [load]) == Upsert(AfterLoads(map[], loads), load.latest, load.at)
  {
    assert (loads + [load])[..|loads|] == loads;
  }

  lemma OneMoreOfNew(loads: seq<Load>, load: Load, id: EventId)
    requires ValidLoads(loads) && LatestPerId(load.frame, load.latest) && id !in AfterLoads(map[], loads)
    requires id in Upsert(AfterLoads(map[], loads), load.latest, load.at)
    ensures NoLaterThan(loads + [load], id, Upsert(AfterLoads(map[], loads), load.latest, load.at)[id].row.ingestedAt)
  {
    var before := AfterLoads(map[], loads);
    UpsertEffect(before, load.latest, load.at);
    NeverMentioned(map[], loads, id);
    KeptIsLatest(before, load, id);
    var shown := Upsert(before, load.latest, load.at)[id].row.ingestedAt;
    AppendedBound(loads, load, id, shown);
    assert NoLaterThan(loads, id, shown) by {
      assert forall i, x | 0 <= i < |loads| && x in loads[i].frame :: x.eventId == id ==> Mentions(loads[i], id);
      assert forall i | 0 <= i < |loads| :: loads[i] in loads;
    }
  }

  lemma AppendedBound(loads: seq<Load>, load: Load, id: EventId, bound: int)
    ensures NoLaterThan(loads + [load], id, bound) <==>
            && NoLaterThan(loads, id, bound)
            && forall x | x in load.frame && x.eventId == id :: x.ingestedAt <= bound
  {
    var all := loads + [load];
    assert forall i | 0 <= i < |loads| :: all[i] == loads[i];
    assert all[|loads|] == load;
  }

  lemma KeptIsLatest(before: Table, load: Load, id: EventId)
    requires LatestPerId(load.frame, load.latest) && id in Ids(load.latest)
    ensures id in Upsert(before, load.latest, load.at)
    ensures var shown := Upsert(before, load.latest, load.at)[id].row;
            && shown in load.latest && shown.eventId == id
            && forall x | x in load.frame && x.eventId == id :: x.ingestedAt <= shown.ingestedAt
  {
    UpsertEffect(before, load.latest, load.at);
    var r :| r in load.latest && r.eventId == id;
    assert Upsert(before, load.latest, load.at)[r.eventId] == Stored(r, load.at);
  }

  lemma OneMoreOfKnown(loads: seq<Load>, load: Load, id: EventId)
    requires ValidLoads(loads) && LatestPerId(load.frame, load.latest) && id in AfterLoads(map[], loads)
    requires NoLaterThan(loads, id, AfterLoads(map[], loads)[id].row.ingestedAt)
    ensures var before := AfterLoads(map[], loads);
            var after := Upsert(before, load.latest, load.at);
            id in after && (NoLaterThan(loads + [load], id, after[id].row.ingestedAt) <==>
              !Mentions(load, id) || KeepsAsLate(load, id, before[id].row.ingestedAt))
  {
    var before := AfterLoads(map[], loads);
    var after := Upsert(before, load.latest, load.at);
    UpsertEffect(before, load.latest, load.at);
    AppendedBound(loads, load, id, after[id].row.ingestedAt);
    if Mentions(load, id) {
      KeptIsLatest(before, load, id);
      ShownWasRead(loads, id);
      AllFramesRows(loads, before[id].row);
    } else {
      assert forall x | x in load.frame :: x.eventId in Ids(load.frame);
    }
  }

  /**
   A replay that reads every id again forgets the past: from any two histories, in order or
   not, it leaves one and the same table, each id showing the latest row the replay read.
   */
  lemma ForcedReplayConverges(table: Table, history: seq<Load>, replay: Load)
    requires ValidLoads(history) && LatestPerId(replay.frame, replay.latest)
    requires AfterLoads(table, history).Keys <= Ids(replay.frame)
    ensures AfterLoads(table, history + [replay]) == Upsert(map[], replay.latest, replay.at)
    ensures forall x | x in replay.frame ::
              && x.eventId in AfterLoads(table, history + [replay])
              && x.ingestedAt <= AfterLoads(table, history + [replay])[x.eventId].row.ingestedAt
  {
    var all := history + [replay];
    assert all[..|all| - 1] == history;
    var before := AfterLoads(table, history);
    UpsertEffect(before, replay.latest, replay.at);
    UpsertEffect(map[], replay.latest, replay.at);
    var a, b := Upsert(before, replay.latest, replay.at), Upsert(map[], replay.latest, replay.at);
    assert a.Keys == b.Keys;
    forall id | id in a
      ensures a[id] == b[id]
    {
      var r :| r in replay.latest && r.eventId == id;
      assert a[r.eventId] == b[r.eventId];
    }
    forall x | x in replay.frame
      ensures x.eventId in a && x.ingestedAt <= a[x.eventId].row.ingestedAt
    {
      assert x.eventId in Ids(replay.frame);
      var r :| r in replay.latest && r.eventId == x.eventId;
      assert a[r.eventId] == Stored(r, replay.at);
    }
  }
}
