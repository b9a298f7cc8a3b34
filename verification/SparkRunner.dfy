/**
 The Spark job runner: one transform from listing to the finished run, and the lock around it.
 What the services answer, and where a call may raise, are arguments.
 */
module SparkRunnerProcess {
  import opened Base
  import opened Observations
  import opened KeyFlattening
  import opened Dedup
  import opened Warehouse
  import opened Transform
  import opened RunLedger
  import ObjectStorage
  import PostgresDatabase
  import SilverKeys

  datatype ObjectInfo = ObjectInfo(key: string, etag: string)

  datatype Request = Request(runId: string, force: bool, prefix: string)

  /** The step of the work that raises, if any. */
  datatype Fault = NoFault | AtListing | AtQuery | AtDownload | AtSpark | AtUpload

  /** A call to the database returns, raises without effect, or raises although it took effect. */
  datatype Call = Returns | FailsBefore | FailsAfter

  /** What the world contributes to one job. */
  datatype World = World(
    listing: seq<ObjectInfo>,    // what the bucket lists under the prefix
    startedAt: int,
    loadAt: int,
    finishedAt: int,
    duration: real,
    cuts: seq<nat>,              // how Spark splits its output into files
    jobUuid: string,
    sizes: seq<Row> -> nat,      // of an output file
    digest: seq<Row> -> nat,     // its SHA-256, as a number
    picks: seq<nat>,             // which download ends next
    fault: Fault,
    uploaded: nat,               // silver files stored before an upload raises
    startCall: Call,
    loadCall: Call,
    finishCall: Call,
    failedCall: Call             // recording a failure may fail too
  )

  datatype Outcome = NoNewData(available: nat) | Transformed(attempt: Attempt) | Raised(message: string)

  datatype Response = Conflict409 | Error500(message: string) | Ok200(outcome: Outcome)

  // ---- Pure parts -----------------------------------------------------------------------

  const SILVER_PREFIX := SilverKeys.SILVER_PREFIX

  /** The output files of Spark: the rows in pieces of the sizes it chooses, and what is left. */
  function Split(rows: seq<Row>, cuts: seq<nat>): seq<seq<Row>>
    decreases |cuts|
  {
    if cuts == [] then if rows == [] then [] else [rows]
    else
      var size := if cuts[0] <= |rows| then cuts[0] else |rows|;
      [rows[..size]] + Split(rows[size..], cuts[1..])
  }

  function Total(parts: seq<seq<Row>>): nat {
    if parts == [] then 0 else |parts[0]| + Total(parts[1..])
  }

  lemma {:induction false} SplitTotal(rows: seq<Row>, cuts: seq<nat>)
    ensures Total(Split(rows, cuts)) == |rows|
    decreases |cuts|
  {
    if cuts != [] {
      var size := if cuts[0] <= |rows| then cuts[0] else |rows|;
      SplitTotal(rows[size..], cuts[1..]);
      assert Split(rows, cuts)[1..] == Split(rows[size..], cuts[1..]);
    } else if rows != [] {
      assert Split(rows, cuts)[1..] == [];
    }
  }

  function SilverKey(runId: string, w: World, i: nat): (k: string)
    ensures SILVER_PREFIX <= k
  {
    SilverKeys.Key(runId, w.jobUuid, i)
  }

  function ArtifactOf(runId: string, w: World, i: nat, part: seq<Row>): Artifact {
    Artifact(SilverKey(runId, w, i), w.sizes(part), |part|, SilverKeys.Hex(w.digest(part), 64))
  }

  /** The artifact names a stored file and tells its size, row count and hash. */
  ghost predicate Describes(a: Artifact, w: World, stored: map<string, seq<Row>>, part: seq<Row>) {
    && a.objectKey in stored && stored[a.objectKey] == part
    && a.sizeBytes == w.sizes(part) && a.rowCount == |part|
    && |a.sha256| == 64 && (w.digest(part) < SilverKeys.Power16(64) ==>
                              SilverKeys.HexValue(a.sha256) == w.digest(part))
  }

  function ArtifactRows(artifacts: seq<Artifact>): nat {
    if artifacts == [] then 0 else ArtifactRows(artifacts[..|artifacts| - 1]) + artifacts[|artifacts| - 1].rowCount
  }

  lemma {:induction false} RowCountsTotal(parts: seq<seq<Row>>, artifacts: seq<Artifact>)
    requires |artifacts| == |parts| && forall i | 0 <= i < |parts| :: artifacts[i].rowCount == |parts[i]|
    ensures ArtifactRows(artifacts) == Total(parts)
  {
    if parts != [] {
      var n := |parts| - 1;
      RowCountsTotal(parts[..n], artifacts[..n]);
      TotalSnoc(parts, n);
      assert parts[..n + 1] == parts;
    }
  }

  lemma ArtifactsTotal(runId: string, w: World, parts: seq<seq<Row>>, artifacts: seq<Artifact>)
    requires |artifacts| == |parts|
    requires forall i | 0 <= i < |parts| :: artifacts[i] == ArtifactOf(runId, w, i, parts[i])
    ensures ArtifactRows(artifacts) == Total(parts) && AllHashed(artifacts)
  {
    RowCountsTotal(parts, artifacts);
    forall a | a in artifacts
      ensures a.sha256 != ""
    {
      var i :| 0 <= i < |artifacts| && artifacts[i] == a;
    }
  }

  lemma {:induction false} TotalSnoc(parts: seq<seq<Row>>, i: nat)
    requires i < |parts|
    ensures Total(parts[..i + 1]) == Total(parts[..i]) + |parts[i]|
  {
    if i > 0 {
      TotalSnoc(parts[1..], i - 1);
      assert parts[..i + 1][1..] == parts[1..][..i] && parts[..i][1..] == parts[1..][..i - 1];
    } else {
      assert parts[..1][1..] == [];
    }
  }

  /** The rows of these parts, one after the other. */
  function Joined(parts: seq<seq<Row>>): seq<Row> {
    if parts == [] then [] else parts[0] + Joined(parts[1..])
  }

  /** Spark's output files hold exactly the rows kept, in their order. */
  lemma {:induction false} SplitJoined(rows: seq<Row>, cuts: seq<nat>)
    ensures Joined(Split(rows, cuts)) == rows
    decreases |cuts|
  {
    if cuts != [] {
      var size := if cuts[0] <= |rows| then cuts[0] else |rows|;
      SplitJoined(rows[size..], cuts[1..]);
      assert Split(rows, cuts)[1..] == Split(rows[size..], cuts[1..]);
    } else if rows != [] {
      assert Split(rows, cuts)[1..] == [];
    }
  }

  /** Objects outside the silver area are as they were. */
  ghost predicate OnlySilverChanged(before: map<string, seq<Row>>, after: map<string, seq<Row>>) {
    forall k | !(SILVER_PREFIX <= k) ::
      (k in after <==> k in before) && (k in after ==> after[k] == before[k])
  }

  /** The bucket after storing these parts under these names. */
  function AfterParts(objects: map<string, seq<Row>>, names: nat -> string,
                      parts: seq<seq<Row>>): map<string, seq<Row>> {
    if parts == [] then objects
    else
      var n := |parts| - 1;
      AfterParts(objects, names, parts[..n])[names(n) := parts[n]]
  }

  function SilverNames(runId: string, w: World): nat -> string {
    (i: nat) => SilverKey(runId, w, i)
  }

  /** The bucket after uploading these output files. */
  function AfterSilver(objects: map<string, seq<Row>>, runId: string, w: World,
                       parts: seq<seq<Row>>): map<string, seq<Row>> {
    AfterParts(objects, SilverNames(runId, w), parts)
  }

  /** Each part stands under its own name. */
  lemma {:induction false} PartStored(objects: map<string, seq<Row>>, names: nat -> string, parts: seq<seq<Row>>,
                                      i: nat)
    requires i < |parts| && forall a: nat, b: nat | names(a) == names(b) :: a == b
    ensures names(i) in AfterParts(objects, names, parts) && AfterParts(objects, names, parts)[names(i)] == parts[i]
  {
    var n := |parts| - 1;
    if i < n {
      PartStored(objects, names, parts[..n], i);
      assert names(i) != names(n);
    }
  }

  lemma NamesApart(runId: string, w: World)
    ensures forall a: nat, b: nat | SilverNames(runId, w)(a) == SilverNames(runId, w)(b) :: a == b
  {
    forall a: nat, b: nat | SilverNames(runId, w)(a) == SilverNames(runId, w)(b)
      ensures a == b
    {
      SilverKeys.NumbersTellApart(runId, w.jobUuid, a, b);
    }
  }

  lemma ArtifactsDescribe(objects: map<string, seq<Row>>, runId: string, w: World, parts: seq<seq<Row>>,
                          artifacts: seq<Artifact>)
    requires |artifacts| == |parts|
    requires forall i | 0 <= i < |parts| :: artifacts[i] == ArtifactOf(runId, w, i, parts[i])
    ensures DescribesAll(artifacts, w, AfterSilver(objects, runId, w, parts), parts)
  {
    NamesApart(runId, w);
    forall i | 0 <= i < |parts|
      ensures Describes(artifacts[i], w, AfterSilver(objects, runId, w, parts), parts[i])
    {
      PartStored(objects, SilverNames(runId, w), parts, i);
      if w.digest(parts[i]) < SilverKeys.Power16(64) {
        SilverKeys.HexRoundTrip(w.digest(parts[i]), 64);
      }
    }
  }

  lemma AfterPartsSnoc(objects: map<string, seq<Row>>, names: nat -> string, parts: seq<seq<Row>>, i: nat)
    requires i < |parts|
    ensures AfterParts(objects, names, parts[..i + 1]) == AfterParts(objects, names, parts[..i])[names(i) := parts[i]]
  {
    assert parts[..i + 1][..i] == parts[..i];
  }

  lemma {:induction false} AfterSilverElsewhere(objects: map<string, seq<Row>>, runId: string, w: World,
                                                parts: seq<seq<Row>>)
    ensures OnlySilverChanged(objects, AfterSilver(objects, runId, w, parts))
  {
    if parts != [] {
      var n := |parts| - 1;
      AfterSilverElsewhere(objects, runId, w, parts[..n]);
      SilverUpload(objects, AfterSilver(objects, runId, w, parts[..n]), SilverKey(runId, w, n), parts[n]);
    }
  }

  lemma SilverUpload(before: map<string, seq<Row>>, here: map<string, seq<Row>>, key: string, rows: seq<Row>)
    requires OnlySilverChanged(before, here) && SILVER_PREFIX <= key
    ensures OnlySilverChanged(before, here[key := rows])
  {
  }

  function KeysOf(listing: seq<ObjectInfo>): seq<string> {
    seq(|listing|, i requires 0 <= i < |listing| => listing[i].key)
  }

  function EtagsOf(listing: seq<ObjectInfo>): map<string, string> {
    if listing == [] then map[]
    else
      var last := listing[|listing| - 1];
      EtagsOf(listing[..|listing| - 1])[last.key := last.etag]
  }

  function SourceOf(r: ObjectRecord): Source {
    Source(r.key, r.etag, r.rowCount)
  }

  function SourcesOf(records: seq<ObjectRecord>): seq<Source> {
    seq(|records|, i requires 0 <= i < |records| => SourceOf(records[i]))
  }

  /** A listing without repetitions tells the etag of each of its objects. */
  lemma {:induction false} EtagsShow(listing: seq<ObjectInfo>, i: nat)
    requires NoDup(KeysOf(listing)) && i < |listing|
    ensures listing[i].key in EtagsOf(listing) && EtagsOf(listing)[listing[i].key] == listing[i].etag
  {
    var n := |listing| - 1;
    if i < n {
      assert KeysOf(listing)[i] != KeysOf(listing)[n];
      assert KeysOf(listing[..n]) == KeysOf(listing)[..n];
      EtagsShow(listing[..n], i);
    }
  }

  /** The local files after downloading these objects one after the other. */
  function Downloaded(objects: map<string, seq<Row>>, keys: seq<string>): (files: Files)
    requires forall k | k in keys :: k in objects
    ensures AllFetched(keys, files)
  {
    if keys == [] then map[]
    else
      var init, last := keys[..|keys| - 1], keys[|keys| - 1];
      assert last in keys && keys == init + [last];
      Downloaded(objects, init)[Flatten(last) := objects[last]]
  }

  lemma {:induction false} DownloadedFile(objects: map<string, seq<Row>>, order: seq<string>, k: string)
    requires forall x | x in order :: x in objects
    requires k in order && forall x | x in order && Flatten(x) == Flatten(k) :: x == k
    ensures Downloaded(objects, order)[Flatten(k)] == objects[k]
  {
    var init, last := order[..|order| - 1], order[|order| - 1];
    assert last in order;
    if k != last {
      assert k in init;
      DownloadedFile(objects, init, k);
    }
  }

  /** Downloads run side by side: the order in which they end. */
  function Arrange(keys: seq<string>, picks: seq<nat>): seq<string>
    decreases |keys|
  {
    if keys == [] then []
    else
      var i := if picks == [] then 0 else picks[0] % |keys|;
      [keys[i]] + Arrange(keys[..i] + keys[i + 1..], if picks == [] then [] else picks[1..])
  }

  lemma {:induction false} ArrangeKeys(keys: seq<string>, picks: seq<nat>)
    ensures forall k :: k in Arrange(keys, picks) <==> k in keys
    ensures |Arrange(keys, picks)| == |keys|
    decreases |keys|
  {
    if keys != [] {
      var i := if picks == [] then 0 else picks[0] % |keys|;
      var rest := keys[..i] + keys[i + 1..];
      ArrangeKeys(rest, if picks == [] then [] else picks[1..]);
      forall k
        ensures k in keys <==> k == keys[i] || k in rest
      {
        if k in keys {
          var j :| 0 <= j < |keys| && keys[j] == k;
          assert j < i ==> rest[j] == k;
          assert j > i ==> rest[j - 1] == k;
        }
      }
    }
  }

  /** The local files of a job, however its downloads overtake each other. */
  function FilesOf(objects: map<string, seq<Row>>, keys: seq<string>, picks: seq<nat>): (files: Files)
    requires forall k | k in keys :: k in objects
    ensures AllFetched(keys, files)
  {
    ArrangeKeys(keys, picks);
    Downloaded(objects, Arrange(keys, picks))
  }

  /**
   When no two keys share a local name, Spark reads exactly the contents of the objects, in whatever
   order the downloads ended.
   */
  lemma SparkReadsTheObjects(objects: map<string, seq<Row>>, keys: seq<string>, picks: seq<nat>)
    requires (forall k | k in keys :: k in objects) && DistinctNames(keys)
    ensures Frame(keys, FilesOf(objects, keys, picks)) == Contents(objects, keys)
  {
    ArrangeKeys(keys, picks);
    forall k | k in keys
      ensures FilesOf(objects, keys, picks)[Flatten(k)] == objects[k]
    {
      DownloadedFile(objects, Arrange(keys, picks), k);
    }
    FrameOfFiles(objects, keys, FilesOf(objects, keys, picks));
  }

  function FinishOf(w: World, attempt: Outcome): Finish {
    match attempt
    case NoNewData(_) => NoDataFinish(w.duration)
    case Transformed(a) => TransformedFinish(a)
    case Raised(m) => FailedFinish(w.duration, m)
  }

  /** The exception that ends the work, if any: its own, or that of recording the finish. */
  function Raises(w: World, attempt: Outcome): Option<string> {
    if attempt.Raised? then Some(attempt.message)
    else if w.finishCall != Returns then Some("finishing the run failed")
    else None
  }

  /** What the caller learns of a job whose work had this outcome. */
  function Reported(w: World, attempt: Outcome): Outcome {
    if w.startCall != Returns then Raised("starting the run failed")
    else match Raises(w, attempt)
      case None => attempt
      case Some(m) => if w.failedCall == Returns then Raised(m) else Raised("recording the failure failed")
  }

  /** The run ledger after recording how the work of a started run ended. */
  ghost function Recorded(started: Runs, request: Request, w: World, attempt: Outcome): Runs {
    var finished := if attempt.Raised? || w.finishCall == FailsBefore then started
                    else FinishRun(started, request.runId, FinishOf(w, attempt), w.finishedAt);
    match Raises(w, attempt)
    case None => finished
    case Some(m) =>
      if w.failedCall == FailsBefore then finished
      else FinishRun(finished, request.runId, FailedFinish(w.duration, m), w.finishedAt)
  }

  /** The finish of the work reached the table. */
  predicate FinishApplied(w: World, attempt: Outcome) {
    !attempt.Raised? && w.finishCall != FailsBefore
  }

  /** So did the record of an exception. */
  predicate FailureApplied(w: World, attempt: Outcome) {
    Raises(w, attempt).Some? && w.failedCall != FailsBefore
  }

  /**
   What recording shows of the run. It is FAILED exactly when an exception was recorded, with its
   message and duration, and not otherwise unless it was before. The counts and artifacts of a completed
   transform stand even if the run then fails because the answer to its finish was lost.
   */
  ghost predicate ShowsEnding(before: RunRow, row: RunRow, w: World, attempt: Outcome) {
    && row.startedAt == before.startedAt && row.dbtStatus == before.dbtStatus
    && (FailureApplied(w, attempt) ==>
          && row.status == Failed && row.errorMessage == Some(Clip(Raises(w, attempt).value))
          && row.jobDuration == Some(w.duration))
    && (FailureApplied(w, attempt) || FinishApplied(w, attempt) ==> row.finishedAt == Some(w.finishedAt))
    && (!FailureApplied(w, attempt) && FinishApplied(w, attempt) ==>
          row.status == (if attempt.NoNewData? then NoData else Status.Transformed) && row.errorMessage.None?)
    && (!FailureApplied(w, attempt) && !FinishApplied(w, attempt) ==> row == before)
    && (if FinishApplied(w, attempt) && attempt.Transformed? then ShowsAttempt(row, attempt.attempt)
        else && row.acceptedRows == before.acceptedRows && row.details == before.details
             && row.sourceObjects == if FinishApplied(w, attempt) then 0 else before.sourceObjects)
  }

  lemma RecordedShows(runs: Runs, request: Request, w: World, attempt: Outcome)
    ensures Recorded(runs, request, w, attempt).Keys == runs.Keys
    ensures forall id | id in runs && id != request.runId :: Recorded(runs, request, w, attempt)[id] == runs[id]
    ensures request.runId in runs ==>
              ShowsEnding(runs[request.runId], Recorded(runs, request, w, attempt)[request.runId], w, attempt)
  {
    if request.runId in runs {
      var before := runs[request.runId];
      assert before.details + map[] == before.details;
      if FinishApplied(w, attempt) {
        EndingOfFinish(before, w, attempt);
      } else if FailureApplied(w, attempt) {
        EndingOfFailure(before, w, attempt);
      }
    }
  }

  /** A finish that takes effect, then perhaps the record of its failure. */
  lemma EndingOfFinish(before: RunRow, w: World, attempt: Outcome)
    requires FinishApplied(w, attempt)
    ensures var finished := Finished(before, FinishOf(w, attempt), w.finishedAt);
            && (!FailureApplied(w, attempt) ==> ShowsEnding(before, finished, w, attempt))
            && (FailureApplied(w, attempt) ==>
                  ShowsEnding(before, Finished(finished, FailedFinish(w.duration, Raises(w, attempt).value),
                                               w.finishedAt),
                              w, attempt))
  {
    var finished := Finished(before, FinishOf(w, attempt), w.finishedAt);
    assert finished.details + map[] == finished.details;
    assert before.details + map[] == before.details;
  }

  lemma EndingOfFailure(before: RunRow, w: World, attempt: Outcome)
    requires !FinishApplied(w, attempt) && FailureApplied(w, attempt)
    ensures ShowsEnding(before, Finished(before, FailedFinish(w.duration, Raises(w, attempt).value), w.finishedAt),
                        w, attempt)
  {
    assert before.details + map[] == before.details;
  }

  /** The run ledger after a job whose work had this outcome. */
  ghost function RunsAfter(runs: Runs, request: Request, w: World, attempt: Outcome): Runs {
    var started := if w.startCall == FailsBefore then runs else StartRun(runs, request.runId, w.startedAt);
    if w.startCall == Returns then Recorded(started, request, w, attempt) else started
  }

  /** The tables after loading what these files hold. */
  ghost predicate FilesLoaded(request: Request, w: World, keys: seq<string>, files: Files,
                              before: (Table, Manifest), after: (Table, Manifest))
    requires AllFetched(keys, files)
  {
    && (forall r | r in Deduplicate(Frame(keys, files)) :: Checks(r))
    && after.0 == Upsert(before.0, Deduplicate(Frame(keys, files)), w.loadAt)
    && after.1 == RecordObjects(before.1, Records(keys, files, EtagsOf(w.listing), request.runId), w.loadAt)
  }

  /** The tables after loading these objects from the bucket. */
  ghost predicate AllLoaded(request: Request, w: World, objects: map<string, seq<Row>>, keys: seq<string>,
                            before: (Table, Manifest), after: (Table, Manifest))
    requires forall k | k in keys :: k in objects
  {
    FilesLoaded(request, w, keys, FilesOf(objects, keys, w.picks), before, after)
  }

  /** The output files of a job over these objects. */
  ghost function Output(w: World, objects: map<string, seq<Row>>, keys: seq<string>): seq<seq<Row>>
    requires forall k | k in keys :: k in objects
  {
    Split(Deduplicate(Frame(keys, FilesOf(objects, keys, w.picks))), w.cuts)
  }

  /** The bucket after the first n of them are stored. */
  ghost predicate SilverUpTo(request: Request, w: World, objects: map<string, seq<Row>>, keys: seq<string>, n: nat,
                             after: map<string, seq<Row>>)
    requires forall k | k in keys :: k in objects
  {
    n <= |Output(w, objects, keys)| && after == AfterSilver(objects, request.runId, w, Output(w, objects, keys)[..n])
  }

  /** Every source named with its etag and the rows read of it. */
  ghost predicate NamesSources(sources: seq<Source>, w: World, keys: seq<string>, files: Files)
    requires AllFetched(keys, files)
  {
    && |sources| == |keys|
    && forall i | 0 <= i < |keys| ::
         && sources[i].objectKey == keys[i] && keys[i] in keys && sources[i].rowCount == |files[Flatten(keys[i])]|
         && (keys[i] in EtagsOf(w.listing) ==> sources[i].etag == EtagsOf(w.listing)[keys[i]])
  }

  /** The report tells what was read and loaded. */
  ghost predicate FilesReported(a: Attempt, request: Request, w: World, keys: seq<string>, files: Files)
    requires AllFetched(keys, files)
  {
    var frame := Frame(keys, files);
    && Reconciled(a)
    && a.sourceObjects == |keys|
    && a.inputRows == |frame| == RowCountSum(Records(keys, files, EtagsOf(w.listing), request.runId))
    && a.acceptedRows == |Ids(frame)| == ArtifactRows(a.artifacts)
    && a.duplicatesRemoved == |frame| - |Ids(frame)|
    && a.lateRows == LateCount(Deduplicate(frame))
    && a.jobDuration == w.duration
    && NamesSources(a.sources, w, keys, files)
    && a.prefix == request.prefix
  }

  ghost predicate Reports(a: Attempt, request: Request, w: World, objects: map<string, seq<Row>>, keys: seq<string>)
    requires forall k | k in keys :: k in objects
  {
    FilesReported(a, request, w, keys, FilesOf(objects, keys, w.picks))
  }

  // ---- When a job succeeds ------------------------------------------------------------------

  /** No step of the work raises on its own account. */
  predicate Uninterrupted(request: Request, w: World, keys: seq<string>) {
    match w.fault
    case NoFault => true
    case AtListing => false
    case AtQuery => request.force
    case _ => keys == []
  }

  /** What Spark reads of these objects. */
  function RowsRead(w: World, objects: map<string, seq<Row>>, keys: seq<string>): seq<Row>
    requires forall k | k in keys :: k in objects
  {
    Frame(keys, FilesOf(objects, keys, w.picks))
  }

  /** All rows it keeps fit the warehouse. */
  ghost predicate KeptFit(frame: seq<Row>) {
    forall r | r in Deduplicate(frame) :: Checks(r)
  }

  /** The load transaction commits. */
  ghost predicate Commits(request: Request, w: World, objects: map<string, seq<Row>>, keys: seq<string>)
    requires forall k | k in keys :: k in objects
  {
    Uninterrupted(request, w, keys) && keys != [] && w.loadCall != FailsBefore && KeptFit(RowsRead(w, objects, keys))
  }

  /** The work returns: nothing to do, or committed and answered. */
  ghost predicate WorkReturns(request: Request, w: World, objects: map<string, seq<Row>>, keys: seq<string>)
    requires forall k | k in keys :: k in objects
  {
    if keys == [] then Uninterrupted(request, w, keys)
    else Commits(request, w, objects, keys) && w.loadCall == Returns
  }

  /** Start, work and finish all return. */
  ghost predicate JobReturns(request: Request, w: World, objects: map<string, seq<Row>>, keys: seq<string>)
    requires forall k | k in keys :: k in objects
  {
    w.startCall == Returns && w.finishCall == Returns && WorkReturns(request, w, objects, keys)
  }

  /** How many output files are stored. */
  ghost function FilesStored(request: Request, w: World, objects: map<string, seq<Row>>, keys: seq<string>): (n: nat)
    requires forall k | k in keys :: k in objects
    ensures n <= |Output(w, objects, keys)|
  {
    var all := |Output(w, objects, keys)|;
    if keys == [] then 0
    else if Uninterrupted(request, w, keys) then all
    else if w.fault == AtUpload then if w.uploaded < all then w.uploaded else all
    else 0
  }

  /** Rows that all fit are kept rows that all fit; and kept rows fit only if every event has a loadable row. */
  lemma FittingRows(frame: seq<Row>)
    ensures (forall r | r in frame :: Checks(r)) ==> KeptFit(frame)
    ensures KeptFit(frame) ==> forall id | id in Ids(frame) :: Loadable(frame, id)
  {
    DeduplicateKeepsLatest(frame);
    if KeptFit(frame) {
      FrameCanLoad(frame);
    }
  }

  /** Every row of these objects fits the warehouse. */
  ghost predicate ObjectsFit(objects: map<string, seq<Row>>, keys: seq<string>) {
    forall k, r | k in keys && k in objects && r in objects[k] :: Checks(r)
  }

  lemma {:induction false} DownloadedFrom(objects: map<string, seq<Row>>, order: seq<string>, name: string)
    requires (forall k | k in order :: k in objects) && name in Downloaded(objects, order)
    ensures exists k :: k in order && Downloaded(objects, order)[name] == objects[k]
  {
    var init, last := order[..|order| - 1], order[|order| - 1];
    assert last in order;
    if name != Flatten(last) {
      DownloadedFrom(objects, init, name);
      var k :| k in init && Downloaded(objects, init)[name] == objects[k];
      assert k in order;
    }
  }

  /** If all rows of the selected objects fit, so do all rows read, in whatever order downloads ended. */
  lemma FittingObjects(w: World, objects: map<string, seq<Row>>, keys: seq<string>)
    requires (forall k | k in keys :: k in objects) && ObjectsFit(objects, keys)
    ensures KeptFit(RowsRead(w, objects, keys))
  {
    var frame, files := RowsRead(w, objects, keys), FilesOf(objects, keys, w.picks);
    ArrangeKeys(keys, w.picks);
    forall r | r in frame
      ensures Checks(r)
    {
      FrameRows(keys, files, r);
      var k :| k in keys && r in files[Flatten(k)];
      DownloadedFrom(objects, Arrange(keys, w.picks), Flatten(k));
    }
    FittingRows(frame);
  }

  /** No step raises and every call to the database returns. */
  predicate Calm(w: World) {
    w.fault == NoFault && w.startCall == w.loadCall == w.finishCall == Returns
  }

  /**
   A calm job over objects whose rows all fit returns, however many copies of an event they hold; one
   event without a loadable row fails the job and its load, whatever else happens.
   */
  lemma WhenJobReturns(request: Request, w: World, objects: map<string, seq<Row>>, keys: seq<string>)
    requires forall k | k in keys :: k in objects
    ensures Calm(w) && ObjectsFit(objects, keys) ==> JobReturns(request, w, objects, keys)
    ensures Commits(request, w, objects, keys) ==>
              forall id | id in Ids(RowsRead(w, objects, keys)) :: Loadable(RowsRead(w, objects, keys), id)
  {
    if ObjectsFit(objects, keys) {
      FittingObjects(w, objects, keys);
    }
    FittingRows(RowsRead(w, objects, keys));
  }

  // ---- What a job does ----------------------------------------------------------------------

  /**
   What the work of a job does. The tables change exactly when its load commits, and then to those with
   every selected object loaded. It raises exactly when it does not return; its report reconciles, and
   all its output files are stored. Some may be stored in any case.
   */
  ghost predicate WorkEffect(request: Request, w: World, objects: map<string, seq<Row>>, keys: seq<string>,
                             before: (Table, Manifest), attempt: Outcome,
                             stored: map<string, seq<Row>>, after: (Table, Manifest))
    requires forall k | k in keys :: k in objects
  {
    && SilverUpTo(request, w, objects, keys, FilesStored(request, w, objects, keys), stored)
    && (if Commits(request, w, objects, keys) then AllLoaded(request, w, objects, keys, before, after)
        else after == before)
    && (!attempt.Raised? <==> WorkReturns(request, w, objects, keys))
    && match attempt
       case NoNewData(available) => keys == [] && available == |w.listing|
       case Raised(_) => true
       case Transformed(a) =>
         && keys != [] && Reports(a, request, w, objects, keys) && |a.artifacts| == |Output(w, objects, keys)|
         && forall i | 0 <= i < |a.artifacts| :: Describes(a.artifacts[i], w, stored, Output(w, objects, keys)[i])
  }

  /** The same, seen from the files that were read. */
  ghost predicate FilesEffect(request: Request, w: World, keys: seq<string>, files: Files, before: (Table, Manifest),
                              r: Outcome, after: (Table, Manifest))
    requires AllFetched(keys, files)
  {
    && !r.NoNewData?
    && (if w.loadCall != FailsBefore && KeptFit(Frame(keys, files))
        then FilesLoaded(request, w, keys, files, before, after) else after == before)
    && (r.Transformed? <==> w.loadCall == Returns && KeptFit(Frame(keys, files)))
    && (r.Transformed? ==> FilesReported(r.attempt, request, w, keys, files))
  }

  /** The artifacts of these output files. */
  ghost predicate DescribesAll(artifacts: seq<Artifact>, w: World, stored: map<string, seq<Row>>,
                               parts: seq<seq<Row>>) {
    && |artifacts| == |parts|
    && forall i | 0 <= i < |parts| :: Describes(artifacts[i], w, stored, parts[i])
  }

  /** Work that ends before anything is stored. */
  lemma Untouched(request: Request, w: World, objects: map<string, seq<Row>>, keys: seq<string>)
    requires forall k | k in keys :: k in objects
    ensures SilverUpTo(request, w, objects, keys, 0, objects)
  {
    assert Output(w, objects, keys)[..0] == [];
  }

  lemma SourcesNamed(request: Request, w: World, keys: seq<string>, files: Files)
    requires AllFetched(keys, files)
    ensures NamesSources(SourcesOf(Records(keys, files, EtagsOf(w.listing), request.runId)), w, keys, files)
  {
    RecordsKeys(keys, files, EtagsOf(w.listing), request.runId);
    forall i | 0 <= i < |keys|
      ensures var r := Records(keys, files, EtagsOf(w.listing), request.runId)[i];
              && keys[i] in keys && r.key == keys[i] && r.rowCount == |files[Flatten(keys[i])]|
              && (keys[i] in EtagsOf(w.listing) ==> r.etag == EtagsOf(w.listing)[keys[i]])
    {
      assert keys[i] in keys;
      RecordsShow(keys, files, EtagsOf(w.listing), request.runId, i);
    }
  }

  lemma WorkOfFiles(request: Request, w: World, objects: map<string, seq<Row>>, keys: seq<string>, files: Files,
                    before: (Table, Manifest), attempt: Outcome, stored: map<string, seq<Row>>,
                    after: (Table, Manifest))
    requires (forall k | k in keys :: k in objects) && files == FilesOf(objects, keys, w.picks) && keys != []
    requires SilverUpTo(request, w, objects, keys, FilesStored(request, w, objects, keys), stored)
    requires Uninterrupted(request, w, keys) && FilesEffect(request, w, keys, files, before, attempt, after)
    requires attempt.Transformed? ==> DescribesAll(attempt.attempt.artifacts, w, stored, Output(w, objects, keys))
    ensures WorkEffect(request, w, objects, keys, before, attempt, stored, after)
  {
  }

  /** What a whole job does: nothing to tables and bucket if it could not be started. */
  ghost predicate JobEffect(request: Request, w: World, objects: map<string, seq<Row>>, keys: seq<string>,
                            before: (Table, Manifest), attempt: Outcome,
                            stored: map<string, seq<Row>>, after: (Table, Manifest))
    requires forall k | k in keys :: k in objects
  {
    if w.startCall == Returns then WorkEffect(request, w, objects, keys, before, attempt, stored, after)
    else attempt.Raised? && stored == objects && after == before
  }

  // ---- The process ----------------------------------------------------------------------

  class SparkRunner {
    const store: ObjectStorage.ObjectStore
    const db: PostgresDatabase.Database
    var jobLock: bool

    constructor (store: ObjectStorage.ObjectStore, db: PostgresDatabase.Database)
      ensures this.store == store && this.db == db && !jobLock
    {
      this.store, this.db, this.jobLock := store, db, false;
    }

    ghost predicate ListingOf(request: Request, w: World)
      reads store`objects
    {
      && NoDup(KeysOf(w.listing))
      && forall k :: k in KeysOf(w.listing) <==> k in store.objects && request.prefix <= k
    }

    /** The objects this request takes. */
    ghost function Selected(request: Request, w: World): seq<string>
      reads db`manifest
    {
      if request.force then KeysOf(w.listing) else Unprocessed(KeysOf(w.listing), db.manifest.Keys)
    }

    /** The local files; where names coincide, the download that ends last wins. */
    method Download(keys: seq<string>, picks: seq<nat>) returns (files: Files)
      requires forall k | k in keys :: k in store.objects
      ensures files == FilesOf(store.objects, keys, picks)
    {
      ArrangeKeys(keys, picks);
      var order := Arrange(keys, picks);
      files := map[];
      for i := 0 to |order|
        invariant files == Downloaded(store.objects, order[..i])
      {
        assert order[..i + 1][..i] == order[..i];
        files := files[Flatten(order[i]) := store.objects[order[i]]];
      }
      assert order[..|order|] == order;
    }

    /** Stores each part under its name and describes it. */
    method UploadParts(names: nat -> string, describe: (nat, seq<Row>) -> Artifact, parts: seq<seq<Row>>)
      returns (artifacts: seq<Artifact>)
      requires forall i: nat, part :: describe(i, part).objectKey == names(i)
      modifies store`objects
      ensures |artifacts| == |parts| && forall i | 0 <= i < |parts| :: artifacts[i] == describe(i, parts[i])
      ensures store.objects == AfterParts(old(store.objects), names, parts)
    {
      artifacts := [];
      for i := 0 to |parts|
        invariant |artifacts| == i && forall j | 0 <= j < i :: artifacts[j] == describe(j, parts[j])
        invariant store.objects == AfterParts(old(store.objects), names, parts[..i])
      {
        AfterPartsSnoc(old(store.objects), names, parts, i);
        var a := describe(i, parts[i]);
        store.UploadRows(a.objectKey, parts[i]);
        artifacts := artifacts + [a];
      }
      assert parts[..|parts|] == parts;
    }

    /** Uploads the output files and lists them with key, size, row count and hash. */
    method UploadSilver(runId: string, w: World, parts: seq<seq<Row>>) returns (artifacts: seq<Artifact>)
      modifies store`objects
      ensures AllHashed(artifacts) && DescribesAll(artifacts, w, store.objects, parts)
      ensures ArtifactRows(artifacts) == Total(parts)
      ensures store.objects == AfterSilver(old(store.objects), runId, w, parts)
    {
      ghost var before := store.objects;
      artifacts := UploadParts(SilverNames(runId, w), (i: nat, part) => ArtifactOf(runId, w, i, part), parts);
      ArtifactsTotal(runId, w, parts, artifacts);
      ArtifactsDescribe(before, runId, w, parts, artifacts);
    }

    ghost function Tables(): (Table, Manifest)
      reads db`observations, db`manifest
    {
      (db.observations, db.manifest)
    }

    /** Listing, and unless everything is forced, the question which objects are new. */
    method SelectObjects(request: Request, w: World) returns (r: Result<seq<string>>)
      ensures r.Err? <==> w.fault == AtListing || (w.fault == AtQuery && !request.force)
      ensures r.Ok? ==> r.value == Selected(request, w)
    {
      if w.fault == AtListing {
        return Err("listing failed");
      }
      var all := KeysOf(w.listing);
      if request.force {
        return Ok(all);
      }
      if w.fault == AtQuery {
        return Err("manifest query failed");
      }
      var processed := db.ProcessedObjectKeys(all);
      UnprocessedAgree(all, processed, db.manifest.Keys);
      return Ok(Unprocessed(all, processed));
    }

    /** The body of the job between start and finish of the run. */
    method TryTransform(request: Request, w: World) returns (r: Outcome)
      requires ListingOf(request, w)
      modifies store`objects, db`observations, db`manifest
      ensures forall k | k in old(Selected(request, w)) :: k in old(store.objects)
      ensures WorkEffect(request, w, old(store.objects), old(Selected(request, w)), old(Tables()), r, store.objects,
                         Tables())
    {
      UnprocessedKeys(KeysOf(w.listing), db.manifest.Keys);
      Untouched(request, w, store.objects, Selected(request, w));
      var selected := SelectObjects(request, w);
      if selected.Err? {
        return Raised(selected.message);
      }
      var keys := selected.value;
      if keys == [] {
        return NoNewData(|w.listing|);
      }
      if w.fault == AtDownload {
        return Raised("download failed");
      }
      var files := Download(keys, w.picks);
      if w.fault == AtSpark {
        return Raised("Spark failed");
      }
      r := LoadFiles(request, w, keys, files);
    }

    /** From what Spark reads to the committed load. */
    method LoadFiles(request: Request, w: World, keys: seq<string>, files: Files) returns (r: Outcome)
      requires (forall k | k in keys :: k in store.objects) && files == FilesOf(store.objects, keys, w.picks)
      requires keys != [] && (w.fault == AtUpload || Uninterrupted(request, w, keys))
      modifies store`objects, db`observations, db`manifest
      ensures WorkEffect(request, w, old(store.objects), keys, old(Tables()), r, store.objects, Tables())
    {
      ghost var before, tables := store.objects, Tables();
      var ok, artifacts := StoreOutput(request, w, keys, files);
      if !ok {
        return Raised("silver upload failed");
      }
      r := CommitFiles(request, w, keys, files, artifacts);
      WorkOfFiles(request, w, before, keys, files, tables, r, store.objects, Tables());
    }

    /** The output files, all of them unless an upload raises. */
    method StoreOutput(request: Request, w: World, keys: seq<string>, files: Files)
      returns (ok: bool, artifacts: seq<Artifact>)
      requires (forall k | k in keys :: k in store.objects) && files == FilesOf(store.objects, keys, w.picks)
      requires keys != [] && (w.fault == AtUpload || Uninterrupted(request, w, keys))
      modifies store`objects
      ensures ok <==> w.fault != AtUpload
      ensures SilverUpTo(request, w, old(store.objects), keys, FilesStored(request, w, old(store.objects), keys),
                         store.objects)
      ensures ok ==>
                && AllHashed(artifacts) && ArtifactRows(artifacts) == |Deduplicate(Frame(keys, files))|
                && DescribesAll(artifacts, w, store.objects, Output(w, old(store.objects), keys))
    {
      var latest := Deduplicate(Frame(keys, files));
      var parts := Split(latest, w.cuts);
      SplitTotal(latest, w.cuts);
      var count := if w.fault == AtUpload && w.uploaded < |parts| then w.uploaded else |parts|;
      ok := w.fault != AtUpload;
      artifacts := UploadSilver(request.runId, w, parts[..count]);
      assert parts[..|parts|] == parts;
    }

    /** The load and its report. */
    method CommitFiles(request: Request, w: World, keys: seq<string>, files: Files, artifacts: seq<Artifact>)
      returns (r: Outcome)
      requires AllFetched(keys, files) && keys != []
      requires AllHashed(artifacts) && ArtifactRows(artifacts) == |Deduplicate(Frame(keys, files))|
      modifies db`observations, db`manifest
      ensures FilesEffect(request, w, keys, files, old(Tables()), r, Tables())
      ensures r.Transformed? ==> r.attempt.artifacts == artifacts
    {
      var frame := Frame(keys, files);
      var latest := Deduplicate(frame);
      DeduplicateKeepsLatest(frame);
      LatestPerIdCount(frame, latest);
      var inputRows, acceptedRows := |frame|, |latest|;
      var records := Records(keys, files, EtagsOf(w.listing), request.runId);
      RecordsTotal(keys, files, EtagsOf(w.listing), request.runId);
      SourcesNamed(request, w, keys, files);
      var loaded := db.LoadTrafficRows(latest, records, w.loadAt, w.loadCall == FailsBefore);
      if loaded.Err? {
        return Raised(loaded.message);
      }
      if w.loadCall == FailsAfter {
        return Raised("connection lost");
      }
      return Outcome.Transformed(Attempt(
        |keys|, inputRows, loaded.value, inputRows - acceptedRows, LateCount(latest), |artifacts|, w.duration,
        artifacts, SourcesOf(records), request.prefix));
    }

    /**
     The job: the run is started, worked and finished, or failed. `attempt` is how the work itself
     ended. A start that raises stands outside the handler and is never recorded as a failure.
     */
    method RunTransform(request: Request, w: World) returns (r: Outcome, ghost attempt: Outcome)
      requires ListingOf(request, w)
      modifies store`objects, db
      ensures r == Reported(w, attempt)
      ensures db.runs == RunsAfter(old(db.runs), request, w, attempt)
      ensures forall k | k in old(Selected(request, w)) :: k in old(store.objects)
      ensures !r.Raised? <==> JobReturns(request, w, old(store.objects), old(Selected(request, w)))
      ensures JobEffect(request, w, old(store.objects), old(Selected(request, w)), old(Tables()), attempt,
                        store.objects, Tables())
    {
      UnprocessedKeys(KeysOf(w.listing), db.manifest.Keys);
      if w.startCall != FailsBefore {
        db.StartPipelineRun(request.runId, w.startedAt);
      }
      if w.startCall != Returns {
        return Raised("starting the run failed"), Raised("starting the run failed");
      }
      var outcome := TryTransform(request, w);
      Record(request, w, outcome);
      r, attempt := Reported(w, outcome), outcome;
    }

    /** Finishes the run, and if the work or that call raised, fails it. */
    method Record(request: Request, w: World, attempt: Outcome)
      modifies db`runs
      ensures db.runs == Recorded(old(db.runs), request, w, attempt)
      ensures db.runs.Keys == old(db.runs.Keys)
      ensures forall id | id in db.runs && id != request.runId :: db.runs[id] == old(db.runs)[id]
      ensures request.runId in db.runs ==>
                ShowsEnding(old(db.runs)[request.runId], db.runs[request.runId], w, attempt)
    {
      RecordedShows(db.runs, request, w, attempt);
      if !attempt.Raised? && w.finishCall != FailsBefore {
        db.FinishPipelineRun(request.runId, FinishOf(w, attempt), w.finishedAt);
      }
      var exception := Raises(w, attempt);
      if exception.Some? && w.failedCall != FailsBefore {
        db.FinishPipelineRun(request.runId, FailedFinish(w.duration, exception.value), w.finishedAt);
      }
    }

    /** The endpoint: refused without effect while the lock is taken, and never leaves it taken. */
    method BronzeToSilver(request: Request, w: World) returns (response: Response, ghost attempt: Outcome)
      requires ListingOf(request, w)
      modifies this`jobLock, store`objects, db
      ensures response.Conflict409? <==> old(jobLock)
      ensures old(jobLock) ==> unchanged(this) && unchanged(store) && unchanged(db)
      ensures forall k | k in old(Selected(request, w)) :: k in old(store.objects)
      ensures response.Ok200? <==>
                !old(jobLock) && JobReturns(request, w, old(store.objects), old(Selected(request, w)))
      // Calm calls and rows that fit are enough, and every event needs a loadable row.
      ensures !old(jobLock) && Calm(w) && ObjectsFit(old(store.objects), old(Selected(request, w))) ==>
                response.Ok200?
      ensures response.Ok200? && old(Selected(request, w)) != [] ==>
                var frame := RowsRead(w, old(store.objects), old(Selected(request, w)));
                forall id | id in Ids(frame) :: Loadable(frame, id)
      ensures !old(jobLock) ==>
                && !jobLock
                && response == ResponseTo(Reported(w, attempt))
                && db.runs == RunsAfter(old(db.runs), request, w, attempt)
                && JobEffect(request, w, old(store.objects), old(Selected(request, w)), old(Tables()), attempt,
                             store.objects, Tables())
    {
      UnprocessedKeys(KeysOf(w.listing), db.manifest.Keys);
      WhenJobReturns(request, w, store.objects, Selected(request, w));
      if jobLock {
        return Conflict409, Raised("refused");
      }
      jobLock := true;
      var outcome;
      outcome, attempt := RunTransform(request, w);
      jobLock := false;
      response := ResponseTo(outcome);
    }
  }

  function ResponseTo(outcome: Outcome): (r: Response)
    ensures outcome.Raised? ==>
              r.Error500? && |r.message| == 18 + |outcome.message| && r.message[18..] == outcome.message
  {
    if outcome.Raised? then Error500("Spark job failed: " + outcome.message) else Ok200(outcome)
  }

  lemma {:induction false} UnprocessedAgree(all: seq<string>, a: set<string>, b: set<string>)
    requires forall k | k in all :: k in a <==> k in b
    ensures Unprocessed(all, a) == Unprocessed(all, b)
  {
    if all != [] {
      assert all[|all| - 1] in all;
      UnprocessedAgree(all[..|all| - 1], a, b);
    }
  }
}
