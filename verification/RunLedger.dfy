/**
 ops.pipeline_runs as a value: what start_pipeline_run and finish_pipeline_run do to it, and
 the delivery manifest the control API builds from one run.
 */
module RunLedger {
  import opened Base

  datatype Status = Running | Transformed | Success | Failed | NoData

  datatype Artifact = Artifact(objectKey: string, sizeBytes: nat, rowCount: nat, sha256: string)

  datatype Source = Source(objectKey: string, etag: string, rowCount: nat)

  /** The kinds of value the pipeline keeps under a key of the details document. */
  datatype Detail =
    | Artifacts(artifacts: seq<Artifact>)
    | Sources(sources: seq<Source>)
    | Text(text: string)
    | Flag(flag: bool)
    | Number(number: int)
    | Names(names: seq<string>)

  type Details = map<string, Detail>

  const DELIVERY_ARTIFACTS := "delivery_artifacts"
  const SOURCE_MANIFEST := "source_manifest"
  const BRONZE_PREFIX := "bronze_prefix"
  const ROW_RECONCILIATION := "row_reconciliation"
  const SOURCE_SYNC_ID := "source_sync_id"
  const SOURCE_ROWS := "source_rows"
  const SOURCE_AREAS := "source_areas"

  datatype RunRow = RunRow(
    startedAt: int,
    finishedAt: Option<int>,
    status: Status,
    sourceObjects: int,
    inputRows: int,
    acceptedRows: int,
    duplicatesRemoved: int,
    lateRows: int,
    dlqRows: int,
    outputObjects: int,
    jobDuration: Option<real>,
    dbtStatus: Option<string>,
    errorMessage: Option<string>,
    details: Details
  )

  type Runs = map<string, RunRow>

  /** The optional metrics argument of finish_pipeline_run: None where the key is missing. */
  datatype Metrics = Metrics(
    sourceObjects: Option<int> := None,
    inputRows: Option<int> := None,
    acceptedRows: Option<int> := None,
    duplicatesRemoved: Option<int> := None,
    lateRows: Option<int> := None,
    dlqRows: Option<int> := None,
    outputObjects: Option<int> := None,
    jobDuration: Option<real> := None
  )

  /** One call of finish_pipeline_run. */
  datatype Finish = Finish(
    status: Status,
    metrics: Metrics := Metrics(),
    dbtStatus: Option<string> := None,
    errorMessage: Option<string> := None,
    details: Details := map[]
  )

  function Coalesce<T>(given: Option<T>, kept: T): T {
    if given.Some? then given.value else kept
  }

  function CoalesceOption<T>(given: Option<T>, kept: Option<T>): Option<T> {
    if given.Some? then given else kept
  }

  /** A new run, or the same run id started again: metrics, dbt status and details survive. */
  function StartRun(runs: Runs, runId: string, now: int): Runs {
    if runId in runs then
      runs[runId := runs[runId].(startedAt := now, finishedAt := None, status := Running, errorMessage := None)]
    else
      runs[runId := RunRow(now, None, Running, 0, 0, 0, 0, 0, 0, 0, None, None, None, map[])]
  }

  /** An update of a run that is not in the table changes nothing. */
  function FinishRun(runs: Runs, runId: string, finish: Finish, now: int): Runs {
    if runId in runs then runs[runId := Finished(runs[runId], finish, now)] else runs
  }

  function Finished(row: RunRow, finish: Finish, now: int): RunRow {
    row.(
      finishedAt := Some(now),
      status := finish.status,
      sourceObjects := Coalesce(finish.metrics.sourceObjects, row.sourceObjects),
      inputRows := Coalesce(finish.metrics.inputRows, row.inputRows),
      acceptedRows := Coalesce(finish.metrics.acceptedRows, row.acceptedRows),
      duplicatesRemoved := Coalesce(finish.metrics.duplicatesRemoved, row.duplicatesRemoved),
      lateRows := Coalesce(finish.metrics.lateRows, row.lateRows),
      dlqRows := Coalesce(finish.metrics.dlqRows, row.dlqRows),
      outputObjects := Coalesce(finish.metrics.outputObjects, row.outputObjects),
      jobDuration := CoalesceOption(finish.metrics.jobDuration, row.jobDuration),
      dbtStatus := CoalesceOption(finish.dbtStatus, row.dbtStatus),
      errorMessage := finish.errorMessage,
      details := row.details + finish.details
    )
  }

  /**
   A PATCH whose response was lost may be sent again: the second application leaves the run as
   the first did, except for the finishing time.
   */
  lemma FinishTwice(runs: Runs, runId: string, finish: Finish, first: int, second: int)
    ensures FinishRun(FinishRun(runs, runId, finish, first), runId, finish, second)
            == FinishRun(runs, runId, finish, second)
  {
    if runId in runs {
      var row := runs[runId];
      assert row.details + finish.details + finish.details == row.details + finish.details;
      assert Finished(Finished(row, finish, first), finish, second) == Finished(row, finish, second);
    }
  }

  /** The counts a run reports. */
  function Counts(row: RunRow): (int, int, int, int, int, int, int) {
    (row.sourceObjects, row.inputRows, row.acceptedRows, row.duplicatesRemoved, row.lateRows, row.dlqRows,
     row.outputObjects)
  }

  /** What starting a run shows: other runs untouched, and of an earlier attempt all but its ending. */
  ghost predicate ShowsStart(before: Runs, after: Runs, runId: string, now: int) {
    && after.Keys == before.Keys + {runId}
    && (forall id | id in before && id != runId :: after[id] == before[id])
    && var row := after[runId];
       && row.status == Running && row.startedAt == now && row.finishedAt.None? && row.errorMessage.None?
       && if runId in before
          then && Counts(row) == Counts(before[runId]) && row.jobDuration == before[runId].jobDuration
               && row.dbtStatus == before[runId].dbtStatus && row.details == before[runId].details
          else && Counts(row) == (0, 0, 0, 0, 0, 0, 0) && row.jobDuration.None?
               && row.dbtStatus.None? && row.details == map[]
  }

  /** A given value replaces the old one, a missing one keeps it. */
  ghost predicate Overlays<T>(given: Option<T>, before: T, after: T) {
    (given.Some? ==> after == given.value) && (given.None? ==> after == before)
  }

  ghost predicate OverlaysMetrics(m: Metrics, before: RunRow, after: RunRow) {
    && Overlays(m.sourceObjects, before.sourceObjects, after.sourceObjects)
    && Overlays(m.inputRows, before.inputRows, after.inputRows)
    && Overlays(m.acceptedRows, before.acceptedRows, after.acceptedRows)
    && Overlays(m.duplicatesRemoved, before.duplicatesRemoved, after.duplicatesRemoved)
    && Overlays(m.lateRows, before.lateRows, after.lateRows)
    && Overlays(m.dlqRows, before.dlqRows, after.dlqRows)
    && Overlays(m.outputObjects, before.outputObjects, after.outputObjects)
    && (m.jobDuration.Some? ==> after.jobDuration == m.jobDuration)
    && (m.jobDuration.None? ==> after.jobDuration == before.jobDuration)
  }

  /** Keys of the new document win, the others of the old one stay. */
  ghost predicate OverlaysDetails(given: Details, before: Details, after: Details) {
    && after.Keys == before.Keys + given.Keys
    && (forall k | k in given :: after[k] == given[k])
    && forall k | k in before && k !in given :: after[k] == before[k]
  }

  /** What finishing a run shows: no run appears, other runs untouched, missing values kept. */
  ghost predicate ShowsFinish(before: Runs, after: Runs, runId: string, finish: Finish, now: int) {
    && after.Keys == before.Keys
    && (forall id | id in before && id != runId :: after[id] == before[id])
    && (runId in before ==>
          var earlier, row := before[runId], after[runId];
          && row.status == finish.status && row.finishedAt == Some(now) && row.startedAt == earlier.startedAt
          && row.errorMessage == finish.errorMessage
          && (finish.dbtStatus.Some? ==> row.dbtStatus == finish.dbtStatus)
          && (finish.dbtStatus.None? ==> row.dbtStatus == earlier.dbtStatus)
          && OverlaysMetrics(finish.metrics, earlier, row)
          && OverlaysDetails(finish.details, earlier.details, row.details))
  }

  lemma StartShows(runs: Runs, runId: string, now: int)
    ensures ShowsStart(runs, StartRun(runs, runId, now), runId, now)
  {
  }

  lemma FinishShows(runs: Runs, runId: string, finish: Finish, now: int)
    ensures ShowsFinish(runs, FinishRun(runs, runId, finish, now), runId, finish, now)
  {
  }

  /**
   A restarted run that then fails still shows the counts, dbt status and details of its earlier
   attempt; only its duration is the new one.
   */
  lemma RestartKeepsStaleMetrics(runs: Runs, runId: string, start: int, end: int, duration: real, message: string)
    requires runId in runs
    ensures var failed := FinishRun(StartRun(runs, runId, start), runId, FailedFinish(duration, message), end)[runId];
            && failed.status == Failed && failed.jobDuration == Some(duration)
            && failed.errorMessage == Some(Clip(message))
            && Counts(failed) == Counts(runs[runId])
            && failed.dbtStatus == runs[runId].dbtStatus
            && failed.details == runs[runId].details
  {
    assert runs[runId].details + map[] == runs[runId].details;
  }

  /** Every listed artifact carries a non-empty hash. */
  predicate AllHashed(artifacts: seq<Artifact>) {
    forall a | a in artifacts :: a.sha256 != ""
  }

  // ---- What the pipeline writes -----------------------------------------------------------

  /** What a transform that ran to its end has to report. */
  datatype Attempt = Attempt(
    sourceObjects: int,
    inputRows: int,
    acceptedRows: int,
    duplicatesRemoved: int,
    lateRows: int,
    outputObjects: int,
    jobDuration: real,
    artifacts: seq<Artifact>,
    sources: seq<Source>,
    prefix: string
  )

  /** What the transform guarantees of a report (proved of the Spark runner). */
  predicate Reconciled(a: Attempt) {
    && a.sourceObjects > 0
    && a.inputRows == a.acceptedRows + a.duplicatesRemoved
    && a.outputObjects == |a.artifacts|
    && AllHashed(a.artifacts)
  }

  function TransformedFinish(a: Attempt): Finish {
    Finish(
      Transformed,
      metrics := Metrics(
        sourceObjects := Some(a.sourceObjects),
        inputRows := Some(a.inputRows),
        acceptedRows := Some(a.acceptedRows),
        duplicatesRemoved := Some(a.duplicatesRemoved),
        lateRows := Some(a.lateRows),
        outputObjects := Some(a.outputObjects),
        jobDuration := Some(a.jobDuration)
      ),
      details := map[
        BRONZE_PREFIX := Text(a.prefix),
        ROW_RECONCILIATION := Flag(a.inputRows == a.acceptedRows + a.duplicatesRemoved),
        DELIVERY_ARTIFACTS := Artifacts(a.artifacts),
        SOURCE_MANIFEST := Sources(a.sources)
      ]
    )
  }

  function NoDataFinish(duration: real): Finish {
    Finish(NoData, metrics := Metrics(sourceObjects := Some(0), jobDuration := Some(duration)))
  }

  /** The first two thousand characters. */
  function Clip(message: string): (m: string)
    ensures m <= message && |m| == if |message| <= 2000 then |message| else 2000
  {
    if |message| <= 2000 then message else message[..2000]
  }

  function FailedFinish(duration: real, message: string): Finish {
    Finish(Failed, metrics := Metrics(jobDuration := Some(duration)), errorMessage := Some(Clip(message)))
  }

  /** The quality gate's report of a run without new data. */
  function SkippedFinish(): Finish {
    Finish(NoData, dbtStatus := Some("SKIPPED"))
  }

  /** The quality gate's report of a failing dbt command. */
  function GateFailedFinish(message: string): Finish {
    Finish(Failed, dbtStatus := Some("FAIL"), errorMessage := Some(message))
  }

  datatype SyncReport = SyncReport(syncId: string, inputRows: int, areaNames: seq<string>)

  function SuccessFinish(sync: SyncReport): Finish {
    Finish(
      Success,
      dbtStatus := Some("PASS"),
      details := map[
        "orchestrator" := Text("Apache Airflow"),
        "quality_gate" := Text("dbt build + source freshness"),
        "source" := Text("서울시 실시간 도시데이터·도로소통"),
        SOURCE_SYNC_ID := Text(sync.syncId),
        SOURCE_ROWS := Number(sync.inputRows),
        SOURCE_AREAS := Names(sync.areaNames)
      ]
    )
  }

  // ---- What the reports show in the run row -------------------------------------------------

  /** The run shows the counts and artifacts of this attempt. */
  ghost predicate ShowsAttempt(row: RunRow, a: Attempt) {
    && row.sourceObjects == a.sourceObjects && row.inputRows == a.inputRows && row.acceptedRows == a.acceptedRows
    && row.duplicatesRemoved == a.duplicatesRemoved && row.lateRows == a.lateRows
    && row.outputObjects == a.outputObjects && ArtifactsOf(row.details) == a.artifacts
  }

  /** The same counts, duration and documents as before. */
  ghost predicate SameReport(before: RunRow, row: RunRow) {
    Counts(row) == Counts(before) && row.jobDuration == before.jobDuration && row.details == before.details
  }

  /** A completed transform: its counts, where it read and what it wrote; other documents stay. */
  lemma TransformedShows(before: RunRow, a: Attempt, now: int)
    ensures var row := Finished(before, TransformedFinish(a), now);
            && row.status == Transformed && row.errorMessage.None? && row.finishedAt == Some(now)
            && row.startedAt == before.startedAt && row.dbtStatus == before.dbtStatus && row.dlqRows == before.dlqRows
            && ShowsAttempt(row, a) && row.jobDuration == Some(a.jobDuration)
            && BRONZE_PREFIX in row.details && row.details[BRONZE_PREFIX] == Text(a.prefix)
            && SOURCE_MANIFEST in row.details && row.details[SOURCE_MANIFEST] == Sources(a.sources)
            && ROW_RECONCILIATION in row.details
            && row.details[ROW_RECONCILIATION] == Flag(a.inputRows == a.acceptedRows + a.duplicatesRemoved)
  {
  }

  /** Nothing new: no source object, and of an earlier attempt all else stays. */
  lemma NoDataShows(before: RunRow, duration: real, now: int)
    ensures var row := Finished(before, NoDataFinish(duration), now);
            && row.status == NoData && row.errorMessage.None? && row.finishedAt == Some(now)
            && row.startedAt == before.startedAt && row.dbtStatus == before.dbtStatus
            && row.sourceObjects == 0 && row.jobDuration == Some(duration) && row.details == before.details
            && row.inputRows == before.inputRows && row.acceptedRows == before.acceptedRows
            && row.duplicatesRemoved == before.duplicatesRemoved && row.lateRows == before.lateRows
            && row.outputObjects == before.outputObjects && row.dlqRows == before.dlqRows
  {
    assert before.details + map[] == before.details;
  }

  /** A failed job: its duration and the head of its message; counts and documents stay. */
  lemma FailedShows(before: RunRow, duration: real, message: string, now: int)
    ensures var row := Finished(before, FailedFinish(duration, message), now);
            && row.status == Failed && row.errorMessage == Some(Clip(message)) && row.finishedAt == Some(now)
            && row.startedAt == before.startedAt && row.dbtStatus == before.dbtStatus
            && Counts(row) == Counts(before) && row.jobDuration == Some(duration) && row.details == before.details
  {
    assert before.details + map[] == before.details;
  }

  /** What the gate and publishing write: a verdict over an unchanged report. */
  lemma VerdictsShow(before: RunRow, message: string, now: int)
    ensures var row := Finished(before, SkippedFinish(), now);
            && row.status == NoData && row.dbtStatus == Some("SKIPPED") && row.errorMessage.None?
            && SameReport(before, row)
    ensures var row := Finished(before, GateFailedFinish(message), now);
            && row.status == Failed && row.dbtStatus == Some("FAIL") && row.errorMessage == Some(message)
            && SameReport(before, row)
  {
    assert before.details + map[] == before.details;
  }

  /** An announced run: the verdict, the sync it came from, and the report of the transform as it was. */
  ghost predicate ShowsAnnouncement(before: RunRow, row: RunRow, sync: SyncReport) {
    && row.status == Success && row.dbtStatus == Some("PASS") && row.errorMessage.None?
    && Counts(row) == Counts(before) && row.jobDuration == before.jobDuration
    && ArtifactsOf(row.details) == ArtifactsOf(before.details)
    && SOURCE_SYNC_ID in row.details && row.details[SOURCE_SYNC_ID] == Text(sync.syncId)
    && SOURCE_ROWS in row.details && row.details[SOURCE_ROWS] == Number(sync.inputRows)
    && SOURCE_AREAS in row.details && row.details[SOURCE_AREAS] == Names(sync.areaNames)
  }

  lemma SuccessShows(before: RunRow, sync: SyncReport, now: int)
    ensures ShowsAnnouncement(before, Finished(before, SuccessFinish(sync), now), sync)
  {
    assert DELIVERY_ARTIFACTS !in SuccessFinish(sync).details;
  }

  // ---- Delivery manifest ------------------------------------------------------------------

  datatype Delivery = Waiting | Ready | Blocked

  datatype Check = Check(name: string, pass: bool)

  datatype DeliveryManifest = DeliveryManifest(
    delivery: Delivery, checks: seq<Check>, artifacts: seq<Artifact>, lateRows: int)

  function ArtifactsOf(details: Details): seq<Artifact> {
    if DELIVERY_ARTIFACTS in details && details[DELIVERY_ARTIFACTS].Artifacts?
    then details[DELIVERY_ARTIFACTS].artifacts
    else []
  }

  function BuildDeliveryManifest(run: Option<RunRow>): DeliveryManifest {
    match run
    case None => DeliveryManifest(Waiting, [], [], 0)
    case Some(row) =>
      var artifacts := ArtifactsOf(row.details);
      var checks := [
        Check("SOURCE_OBJECTS_PRESENT", row.sourceObjects > 0),
        Check("ROW_RECONCILIATION", row.inputRows == row.acceptedRows + row.duplicatesRemoved),
        Check("DBT_QUALITY_GATE", row.dbtStatus == Some("PASS")),
        Check("ARTIFACT_HASH_MANIFEST",
              artifacts != [] && |artifacts| == row.outputObjects && AllHashed(artifacts))
      ];
      DeliveryManifest(if forall c | c in checks :: c.pass then Ready else Blocked, checks, artifacts, row.lateRows)
  }

  /** The manifest has this check, with this outcome. */
  ghost predicate CheckSays(m: DeliveryManifest, name: string, pass: bool) {
    (exists c :: c in m.checks && c.name == name) && forall c | c in m.checks && c.name == name :: c.pass == pass
  }

  /** Each named check of a run's manifest tells its own condition; the artifacts are those of the run. */
  lemma DeliveryShows(row: RunRow)
    ensures var m, artifacts := BuildDeliveryManifest(Some(row)), ArtifactsOf(row.details);
            && m.delivery != Waiting && m.artifacts == artifacts && m.lateRows == row.lateRows && |m.checks| == 4
            && CheckSays(m, "SOURCE_OBJECTS_PRESENT", row.sourceObjects > 0)
            && CheckSays(m, "ROW_RECONCILIATION", row.inputRows == row.acceptedRows + row.duplicatesRemoved)
            && CheckSays(m, "DBT_QUALITY_GATE", row.dbtStatus == Some("PASS"))
            && CheckSays(m, "ARTIFACT_HASH_MANIFEST",
                       && artifacts != [] && |artifacts| == row.outputObjects
                       && forall a | a in artifacts :: a.sha256 != "")
  {
    NamesDiffer();
    var m := BuildDeliveryManifest(Some(row));
    FourChecks(m, m.checks[0], m.checks[1], m.checks[2], m.checks[3]);
  }

  lemma FourChecks(m: DeliveryManifest, a: Check, b: Check, c: Check, d: Check)
    requires m.checks == [a, b, c, d]
    requires a.name != b.name && a.name != c.name && a.name != d.name
    requires b.name != c.name && b.name != d.name && c.name != d.name
    ensures CheckSays(m, a.name, a.pass) && CheckSays(m, b.name, b.pass)
    ensures CheckSays(m, c.name, c.pass) && CheckSays(m, d.name, d.pass)
  {
    assert a in [a, b, c, d] && b in [a, b, c, d] && c in [a, b, c, d] && d in [a, b, c, d];
  }

  lemma NamesDiffer()
    ensures "SOURCE_OBJECTS_PRESENT" != "ROW_RECONCILIATION" && "SOURCE_OBJECTS_PRESENT" != "DBT_QUALITY_GATE"
    ensures "SOURCE_OBJECTS_PRESENT" != "ARTIFACT_HASH_MANIFEST" && "ROW_RECONCILIATION" != "DBT_QUALITY_GATE"
    ensures "ROW_RECONCILIATION" != "ARTIFACT_HASH_MANIFEST" && "DBT_QUALITY_GATE" != "ARTIFACT_HASH_MANIFEST"
  {
    assert "SOURCE_OBJECTS_PRESENT"[0] == 'S' && "ROW_RECONCILIATION"[0] == 'R' && "DBT_QUALITY_GATE"[0] == 'D';
  }

  /** READY means what the runbook says it means, and nothing less. */
  lemma ReadyMeans(row: RunRow)
    ensures BuildDeliveryManifest(Some(row)).delivery == Ready <==>
            && row.sourceObjects > 0
            && row.inputRows == row.acceptedRows + row.duplicatesRemoved
            && row.dbtStatus == Some("PASS")
            && ArtifactsOf(row.details) != []
            && |ArtifactsOf(row.details)| == row.outputObjects
            && AllHashed(ArtifactsOf(row.details))
  {
    var checks := BuildDeliveryManifest(Some(row)).checks;
    assert checks[0] in checks && checks[1] in checks && checks[2] in checks && checks[3] in checks;
  }
}
