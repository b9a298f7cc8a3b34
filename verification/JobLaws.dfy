/**
 What a transform job means to those who look at the tables afterwards: which rows and manifest entries
 it leaves, and what its run row and its answer tell. All is said of the objects and of the calls.
 */
module JobLaws {
  import opened Base
  import opened Observations
  import opened KeyFlattening
  import opened Dedup
  import opened Warehouse
  import opened Transform
  import opened RunLedger
  import opened SparkRunnerProcess

  // ---- The tables -------------------------------------------------------------------------

  /** The warehouse shows one latest row of each event read, with the clock of the load, and the rest as before. */
  ghost predicate ShowsRows(frame: seq<Row>, now: int, before: Table, after: Table) {
    && after.Keys == before.Keys + Ids(frame)
    && (forall id | id in before && id !in Ids(frame) :: after[id] == before[id])
    && forall id | id in Ids(frame) :: ShowsLatest(frame, now, after[id], id)
  }

  ghost predicate ShowsLatest(frame: seq<Row>, now: int, s: Stored, id: EventId) {
    && s.loadedAt == now && s.row in frame && s.row.eventId == id && Checks(s.row)
    && forall x | x in frame && x.eventId == id :: x.ingestedAt <= s.row.ingestedAt
  }

  /** The manifest lists each object taken with its etag, the run and its own rows, and the rest as before. */
  ghost predicate ShowsObjects(request: Request, w: World, keys: seq<string>, files: Files,
                               before: Manifest, after: Manifest)
    requires AllFetched(keys, files)
  {
    && after.Keys == before.Keys + Elements(keys)
    && (forall k | k in before && k !in keys :: after[k] == before[k])
    && forall i | 0 <= i < |w.listing| && w.listing[i].key in keys ::
         after[w.listing[i].key]
         == ManifestEntry(w.listing[i].etag, request.runId, |files[Flatten(w.listing[i].key)]|, w.loadAt)
  }

  lemma LoadShowsRows(frame: seq<Row>, now: int, before: Table)
    requires KeptFit(frame)
    ensures ShowsRows(frame, now, before, Upsert(before, Deduplicate(frame), now))
  {
    var latest, after := Deduplicate(frame), Upsert(before, Deduplicate(frame), now);
    DeduplicateKeepsLatest(frame);
    UpsertEffect(before, latest, now);
    forall id | id in Ids(frame)
      ensures ShowsLatest(frame, now, after[id], id)
    {
      var r :| r in latest && r.eventId == id;
      assert after[r.eventId] == Stored(r, now);
    }
  }

  lemma LoadShowsObjects(request: Request, w: World, keys: seq<string>, files: Files, before: Manifest)
    requires AllFetched(keys, files) && NoDup(keys) && NoDup(KeysOf(w.listing))
    ensures ShowsObjects(request, w, keys, files, before,
                         RecordObjects(before, Records(keys, files, EtagsOf(w.listing), request.runId), w.loadAt))
  {
    var records := Records(keys, files, EtagsOf(w.listing), request.runId);
    var after := RecordObjects(before, records, w.loadAt);
    RecordEffect(before, records, w.loadAt);
    RecordsReconcile(keys, files, EtagsOf(w.listing), request.runId);
    forall i | 0 <= i < |w.listing| && w.listing[i].key in keys
      ensures after[w.listing[i].key]
              == ManifestEntry(w.listing[i].etag, request.runId, |files[Flatten(w.listing[i].key)]|, w.loadAt)
    {
      EtagsShow(w.listing, i);
      var j :| 0 <= j < |keys| && keys[j] == w.listing[i].key;
      RecordShown(request, w, keys, files, before, j);
    }
  }

  lemma RecordShown(request: Request, w: World, keys: seq<string>, files: Files, before: Manifest, j: nat)
    requires AllFetched(keys, files) && NoDup(keys) && j < |keys| && keys[j] in EtagsOf(w.listing)
    ensures var after := RecordObjects(before, Records(keys, files, EtagsOf(w.listing), request.runId), w.loadAt);
            && keys[j] in keys && keys[j] in after
            && after[keys[j]] == ManifestEntry(EtagsOf(w.listing)[keys[j]], request.runId,
                                               |files[Flatten(keys[j])]|, w.loadAt)
  {
    var records := Records(keys, files, EtagsOf(w.listing), request.runId);
    RecordsKeys(keys, files, EtagsOf(w.listing), request.runId);
    RecordsShow(keys, files, EtagsOf(w.listing), request.runId, j);
    assert keys[j] in keys && LastOfKey(records, j);
    LastRecordShown(before, records, w.loadAt, j);
  }

  /** The tables after a job: changed exactly by a commit, and then column by column as read. */
  lemma JobShowsTables(request: Request, w: World, objects: map<string, seq<Row>>, keys: seq<string>,
                       before: (Table, Manifest), attempt: Outcome, stored: map<string, seq<Row>>,
                       after: (Table, Manifest))
    requires (forall k | k in keys :: k in objects) && NoDup(keys) && NoDup(KeysOf(w.listing))
    requires JobEffect(request, w, objects, keys, before, attempt, stored, after)
    ensures if w.startCall == Returns && Commits(request, w, objects, keys)
            then && ShowsRows(RowsRead(w, objects, keys), w.loadAt, before.0, after.0)
                 && ShowsObjects(request, w, keys, FilesOf(objects, keys, w.picks), before.1, after.1)
            else after == before
  {
    if w.startCall == Returns && Commits(request, w, objects, keys) {
      LoadShowsRows(RowsRead(w, objects, keys), w.loadAt, before.0);
      LoadShowsObjects(request, w, keys, FilesOf(objects, keys, w.picks), before.1);
    }
  }

  // ---- The run row ------------------------------------------------------------------------

  /** The run of a job that succeeded. */
  ghost predicate ShowsSuccess(row: RunRow, w: World, objects: map<string, seq<Row>>, keys: seq<string>)
    requires forall k | k in keys :: k in objects
  {
    && row.startedAt == w.startedAt && row.finishedAt == Some(w.finishedAt) && row.errorMessage.None?
    && row.jobDuration == Some(w.duration)
    && if keys == [] then row.status == NoData && row.sourceObjects == 0
       else
         var frame := RowsRead(w, objects, keys);
         && row.status == Status.Transformed
         && row.sourceObjects == |keys| && row.inputRows == |frame| && row.acceptedRows == |Ids(frame)|
         && row.duplicatesRemoved == |frame| - |Ids(frame)| && row.lateRows == |LateIds(Deduplicate(frame))|
         && row.outputObjects == |Output(w, objects, keys)| == |ArtifactsOf(row.details)|
  }

  lemma SuccessOfTransform(started: RunRow, request: Request, w: World, objects: map<string, seq<Row>>,
                           keys: seq<string>, a: Attempt)
    requires (forall k | k in keys :: k in objects) && keys != [] && started.startedAt == w.startedAt
    requires Reports(a, request, w, objects, keys) && |a.artifacts| == |Output(w, objects, keys)|
    ensures ShowsSuccess(Finished(started, TransformedFinish(a), w.finishedAt), w, objects, keys)
  {
    TransformedShows(started, a, w.finishedAt);
    DeduplicateKeepsLatest(RowsRead(w, objects, keys));
    LateCountIsIds(Deduplicate(RowsRead(w, objects, keys)));
  }

  lemma JobShowsSuccess(runs: Runs, request: Request, w: World, objects: map<string, seq<Row>>, keys: seq<string>,
                        before: (Table, Manifest), attempt: Outcome, stored: map<string, seq<Row>>,
                        after: (Table, Manifest))
    requires (forall k | k in keys :: k in objects) && JobReturns(request, w, objects, keys)
    requires JobEffect(request, w, objects, keys, before, attempt, stored, after)
    ensures request.runId in RunsAfter(runs, request, w, attempt)
    ensures ShowsSuccess(RunsAfter(runs, request, w, attempt)[request.runId], w, objects, keys)
  {
    var started := StartRun(runs, request.runId, w.startedAt)[request.runId];
    if attempt.Transformed? {
      SuccessOfTransform(started, request, w, objects, keys, attempt.attempt);
    } else {
      NoDataShows(started, w.duration, w.finishedAt);
    }
  }

  /**
   A started job that does not succeed leaves its run FAILED, unless that could not be recorded; the caller is
   told the same error.
   */
  lemma JobShowsFailure(runs: Runs, request: Request, w: World, objects: map<string, seq<Row>>, keys: seq<string>,
                        before: (Table, Manifest), attempt: Outcome, stored: map<string, seq<Row>>,
                        after: (Table, Manifest))
    requires (forall k | k in keys :: k in objects) && !JobReturns(request, w, objects, keys)
    requires w.startCall == Returns && w.failedCall != FailsBefore
    requires JobEffect(request, w, objects, keys, before, attempt, stored, after)
    ensures request.runId in RunsAfter(runs, request, w, attempt)
    ensures var row := RunsAfter(runs, request, w, attempt)[request.runId];
            && row.status == Failed && row.finishedAt == Some(w.finishedAt) && row.jobDuration == Some(w.duration)
            && row.errorMessage.Some? && |row.errorMessage.value| <= 2000
            && (w.failedCall == Returns ==>
                  var response := ResponseTo(Reported(w, attempt));
                  response.Error500? && |response.message| >= 18 && row.errorMessage.value <= response.message[18..])
  {
    RecordedShows(StartRun(runs, request.runId, w.startedAt), request, w, attempt);
  }

  /** The answer tells the same numbers. */
  lemma AnswerShows(request: Request, w: World, objects: map<string, seq<Row>>, keys: seq<string>,
                    before: (Table, Manifest), attempt: Outcome, stored: map<string, seq<Row>>,
                    after: (Table, Manifest))
    requires (forall k | k in keys :: k in objects) && JobReturns(request, w, objects, keys)
    requires JobEffect(request, w, objects, keys, before, attempt, stored, after)
    ensures ResponseTo(Reported(w, attempt)).Ok200?
    ensures var outcome := ResponseTo(Reported(w, attempt)).outcome;
            if keys == [] then outcome == NoNewData(|w.listing|)
            else && outcome.Transformed? && outcome.attempt.sourceObjects == |keys|
                 && outcome.attempt.inputRows == |RowsRead(w, objects, keys)|
                 && outcome.attempt.acceptedRows == |Ids(RowsRead(w, objects, keys))|
                 && outcome.attempt.inputRows == outcome.attempt.acceptedRows + outcome.attempt.duplicatesRemoved
  {
  }
}
