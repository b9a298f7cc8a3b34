/**
 The protocol that announces a run: the DAG sends transform requests to the Spark runner, gates
 the result with dbt and publishes. Requests may be refused, jobs may fail or die at any point,
 responses may be lost, and every task may be tried again. The DAG is the only client that uses
 its run id; a request reaches the runner when it is sent.
 */
module Publishing {
  import opened Base
  import opened RunLedger

  datatype Reply = Refused | NothingNew | Completed(attempt: Attempt)

  /** Where a transform of this run stands inside the runner. */
  datatype Stage = Entered | Started | Written(reply: Reply)

  /** JOB_LOCK and, when it is ours, the job inside. */
  datatype Lock = Free | HeldByOther | HeldBy(attempt: nat, stage: Stage)

  /** Where the DAG run stands. */
  datatype Client =
    | Transforming(next: nat, waiting: Option<nat>)
    | Skipping
    | Gating(attempt: Attempt)
    | Publishing(attempt: Attempt)

  datatype World = World(
    runs: Runs,
    lock: Lock,
    answers: map<nat, Reply>,
    client: Client,
    completed: seq<Attempt>
  )

  datatype Step =
    // The runner
    | WriteStart(now: int)
    | WriteNoData(now: int, duration: real)
    | WriteTransformed(now: int, attempt: Attempt)
    | Answer
    | JobFails(now: int, recorded: bool, duration: real, message: string)
    | RunnerCrash
    | OtherAcquires
    | OtherReleases
    | OtherRuns(runs: Runs)
    // The DAG
    | SendTransform
    | GiveUp
    | Receive
    | PatchSkipped(now: int)
    | PatchGateFailed(now: int, message: string)
    | GatePasses
    | PatchSuccess(now: int, sync: SyncReport)

  predicate Enabled(runId: string, w: World, step: Step) {
    match step
    case WriteStart(_) => w.lock.HeldBy? && w.lock.stage.Entered?
    case WriteNoData(_, _) => w.lock.HeldBy? && w.lock.stage.Started?
    case WriteTransformed(_, attempt) => w.lock.HeldBy? && w.lock.stage.Started? && Reconciled(attempt)
    case Answer => w.lock.HeldBy? && w.lock.stage.Written?
    case JobFails(_, _, _, _) => w.lock.HeldBy?
    case RunnerCrash => true
    case OtherAcquires => w.lock.Free?
    case OtherReleases => w.lock.HeldByOther?
    case OtherRuns(runs) =>
      (runId in runs <==> runId in w.runs) && (runId in runs ==> runs[runId] == w.runs[runId])
    case SendTransform => w.client.Transforming? && w.client.waiting.None?
    case GiveUp => w.client.Transforming? && w.client.waiting.Some?
    case Receive => w.client.Transforming? && w.client.waiting.Some? && w.client.waiting.value in w.answers
    case PatchSkipped(_) => w.client.Skipping?
    // A gate attempt that was given up may still report its failure while a later one publishes.
    case PatchGateFailed(_, _) => w.client.Gating? || w.client.Publishing?
    case GatePasses => w.client.Gating?
    case PatchSuccess(_, _) => w.client.Publishing?
  }

  function Next(runId: string, w: World, step: Step): World
    requires Enabled(runId, w, step)
  {
    match step
    case WriteStart(now) =>
      w.(runs := StartRun(w.runs, runId, now), lock := w.lock.(stage := Started))
    case WriteNoData(now, duration) =>
      w.(runs := FinishRun(w.runs, runId, NoDataFinish(duration), now),
         lock := w.lock.(stage := Written(NothingNew)))
    case WriteTransformed(now, attempt) =>
      w.(runs := FinishRun(w.runs, runId, TransformedFinish(attempt), now),
         lock := w.lock.(stage := Written(Completed(attempt))),
         completed := w.completed + [attempt])
    case Answer =>
      w.(answers := w.answers[w.lock.attempt := w.lock.stage.reply], lock := Free)
    case JobFails(now, recorded, duration, message) =>
      w.(runs := if recorded then FinishRun(w.runs, runId, FailedFinish(duration, message), now) else w.runs,
         answers := w.answers[w.lock.attempt := Refused],
         lock := Free)
    case RunnerCrash => w.(lock := Free)
    case OtherAcquires => w.(lock := HeldByOther)
    case OtherReleases => w.(lock := Free)
    case OtherRuns(runs) => w.(runs := runs)
    case SendTransform =>
      var attempt := w.client.next;
      if w.lock.Free? then
        w.(lock := HeldBy(attempt, Entered), client := Transforming(attempt + 1, Some(attempt)))
      else
        w.(client := Transforming(attempt + 1, None))
    case GiveUp => w.(client := w.client.(waiting := None))
    case Receive =>
      (match w.answers[w.client.waiting.value]
       case Refused => w.(client := w.client.(waiting := None))
       case NothingNew => w.(client := Skipping)
       case Completed(attempt) => w.(client := Gating(attempt)))
    case PatchSkipped(now) => w.(runs := FinishRun(w.runs, runId, SkippedFinish(), now))
    case PatchGateFailed(now, message) =>
      w.(runs := FinishRun(w.runs, runId, GateFailedFinish(message), now))
    case GatePasses => w.(client := Publishing(w.client.attempt))
    case PatchSuccess(now, sync) => w.(runs := FinishRun(w.runs, runId, SuccessFinish(sync), now))
  }

  predicate Init(runId: string, w: World) {
    && runId !in w.runs
    && !w.lock.HeldBy?
    && w.answers == map[]
    && w.client == Transforming(0, None)
    && w.completed == []
  }

  ghost predicate Behaviour(runId: string, w: World, steps: seq<Step>, end: World)
    decreases |steps|
  {
    if steps == [] then w == end
    else Enabled(runId, w, steps[0]) && Behaviour(runId, Next(runId, w, steps[0]), steps[1..], end)
  }

  // ---- What every step keeps ----------------------------------------------------------------

  /** The run shows the metrics and artifacts of this attempt. */
  ghost predicate Shows(runs: Runs, runId: string, a: Attempt) {
    runId in runs && ShowsAttempt(runs[runId], a) && runs[runId].jobDuration == Some(a.jobDuration)
  }

  ghost predicate Announceable(w: World, runId: string, a: Attempt) {
    Shows(w.runs, runId, a) && Reconciled(a) && a in w.completed
  }

  /** Requests are numbered and answered once. */
  ghost predicate NumbersInv(w: World) {
    && (w.client.Transforming? ==>
          && (forall n | n in w.answers :: n < w.client.next)
          && (w.lock.HeldBy? ==> w.lock.attempt < w.client.next)
          && (w.client.waiting.Some? ==> w.client.waiting.value < w.client.next))
    && (w.lock.HeldBy? ==> w.lock.attempt !in w.answers)
  }

  /** Whatever has been started, answered or skipped is in the table. */
  ghost predicate KnownInv(runId: string, w: World) {
    && (w.lock.HeldBy? && !w.lock.stage.Entered? ==> runId in w.runs)
    && (forall n | n in w.answers && !w.answers[n].Refused? :: runId in w.runs)
    && (w.client.Skipping? ==> runId in w.runs)
  }

  /**
   While the DAG waits for an attempt, no other job of the run is inside the runner; once it has an
   answer, none is.
   */
  ghost predicate AloneInv(w: World) {
    && (w.lock.HeldBy? && w.client.Transforming? && w.client.waiting.Some? ==>
          w.lock.attempt == w.client.waiting.value)
    && (!w.client.Transforming? ==> !w.lock.HeldBy?)
  }

  /** A completed report on its way to being announced is what the run shows. */
  ghost predicate ReportInv(runId: string, w: World) {
    && (w.lock.HeldBy? && w.lock.stage.Written? && w.lock.stage.reply.Completed? ==>
          Announceable(w, runId, w.lock.stage.reply.attempt))
    && (w.client.Transforming? && w.client.waiting.Some? && w.client.waiting.value in w.answers
        && w.answers[w.client.waiting.value].Completed? ==>
          Announceable(w, runId, w.answers[w.client.waiting.value].attempt))
    && (w.client.Gating? || w.client.Publishing? ==> Announceable(w, runId, w.client.attempt))
  }

  /** Only publishing announces, and it alone says that the gate passed. */
  ghost predicate SuccessInv(runId: string, w: World) {
    runId in w.runs ==>
      && (w.runs[runId].status == Success ==> w.client.Publishing? && w.runs[runId].dbtStatus == Some("PASS"))
      && (w.runs[runId].dbtStatus == Some("PASS") ==> w.client.Publishing?)
  }

  ghost predicate Inv(runId: string, w: World) {
    NumbersInv(w) && KnownInv(runId, w) && AloneInv(w) && ReportInv(runId, w) && SuccessInv(runId, w)
  }

  lemma StepKeepsNumbers(runId: string, w: World, step: Step)
    requires NumbersInv(w) && Enabled(runId, w, step)
    ensures NumbersInv(Next(runId, w, step))
  {
  }

  lemma StepKeepsKnown(runId: string, w: World, step: Step)
    requires KnownInv(runId, w) && Enabled(runId, w, step)
    ensures KnownInv(runId, Next(runId, w, step))
  {
  }

  lemma StepKeepsAlone(runId: string, w: World, step: Step)
    requires NumbersInv(w) && AloneInv(w) && Enabled(runId, w, step)
    ensures AloneInv(Next(runId, w, step))
  {
  }

  lemma StepKeepsSuccess(runId: string, w: World, step: Step)
    requires SuccessInv(runId, w) && AloneInv(w) && KnownInv(runId, w) && Enabled(runId, w, step)
    ensures SuccessInv(runId, Next(runId, w, step))
  {
  }

  /** A PATCH brings neither metrics nor artifacts, so what the run shows of a transform stays. */
  lemma PatchKeepsShown(runs: Runs, runId: string, a: Attempt, finish: Finish, now: int)
    requires Shows(runs, runId, a) && finish.metrics == Metrics() && DELIVERY_ARTIFACTS !in finish.details
    ensures Shows(FinishRun(runs, runId, finish, now), runId, a)
  {
    assert DELIVERY_ARTIFACTS in (runs[runId].details + finish.details) <==> DELIVERY_ARTIFACTS in runs[runId].details;
  }

  lemma WrittenShows(runs: Runs, runId: string, a: Attempt, now: int)
    requires runId in runs
    ensures Shows(FinishRun(runs, runId, TransformedFinish(a), now), runId, a)
  {
  }

  /** Steps that leave the run as it is. */
  predicate Quiet(step: Step) {
    !(step.WriteStart? || step.WriteNoData? || step.WriteTransformed? || step.JobFails?
      || step.PatchSkipped? || step.PatchGateFailed? || step.PatchSuccess?)
  }

  lemma QuietKeepsShown(runId: string, w: World, step: Step, a: Attempt)
    requires Quiet(step) && Enabled(runId, w, step) && Announceable(w, runId, a)
    ensures Announceable(Next(runId, w, step), runId, a)
  {
  }

  lemma QuietKeepsReport(runId: string, w: World, step: Step)
    requires Quiet(step) && NumbersInv(w) && AloneInv(w) && ReportInv(runId, w) && Enabled(runId, w, step)
    ensures ReportInv(runId, Next(runId, w, step))
  {
    forall a | Announceable(w, runId, a)
      ensures Announceable(Next(runId, w, step), runId, a)
    {
      QuietKeepsShown(runId, w, step, a);
    }
    if step.Answer? {
      var t := Next(runId, w, step);
      if w.client.Transforming? && w.client.waiting.Some? && w.client.waiting.value in t.answers {
        assert w.client.waiting.value == w.lock.attempt;
      }
    }
  }

  /** The runner writes only while no report of the run is on its way. */
  lemma RunnerKeepsReport(runId: string, w: World, step: Step)
    requires step.WriteStart? || step.WriteNoData? || step.WriteTransformed? || step.JobFails?
    requires NumbersInv(w) && KnownInv(runId, w) && AloneInv(w) && ReportInv(runId, w) && Enabled(runId, w, step)
    ensures ReportInv(runId, Next(runId, w, step))
  {
    if step.WriteTransformed? {
      WrittenShows(w.runs, runId, step.attempt, step.now);
    }
  }

  lemma PatchKeepsReport(runId: string, w: World, step: Step)
    requires step.PatchSkipped? || step.PatchGateFailed? || step.PatchSuccess?
    requires AloneInv(w) && ReportInv(runId, w) && Enabled(runId, w, step)
    ensures ReportInv(runId, Next(runId, w, step))
  {
    if step.PatchGateFailed? {
      PatchKeepsShown(w.runs, runId, w.client.attempt, GateFailedFinish(step.message), step.now);
    } else if step.PatchSuccess? {
      assert DELIVERY_ARTIFACTS !in SuccessFinish(step.sync).details;
      PatchKeepsShown(w.runs, runId, w.client.attempt, SuccessFinish(step.sync), step.now);
    }
  }

  lemma StepKeepsInv(runId: string, w: World, step: Step)
    requires Inv(runId, w) && Enabled(runId, w, step)
    ensures Inv(runId, Next(runId, w, step))
  {
    StepKeepsNumbers(runId, w, step);
    StepKeepsKnown(runId, w, step);
    StepKeepsAlone(runId, w, step);
    StepKeepsSuccess(runId, w, step);
    if Quiet(step) {
      QuietKeepsReport(runId, w, step);
    } else if step.WriteStart? || step.WriteNoData? || step.WriteTransformed? || step.JobFails? {
      RunnerKeepsReport(runId, w, step);
    } else {
      PatchKeepsReport(runId, w, step);
    }
  }

  lemma {:induction false} BehaviourKeepsInv(runId: string, w: World, steps: seq<Step>, end: World)
    requires Inv(runId, w) && Behaviour(runId, w, steps, end)
    ensures Inv(runId, end)
    decreases |steps|
  {
    if steps != [] {
      StepKeepsInv(runId, w, steps[0]);
      BehaviourKeepsInv(runId, Next(runId, w, steps[0]), steps[1..], end);
    }
  }

  /**
   Over every DAG run, with any number of attempts, failures, crashes and lost responses: a run
   that stands as SUCCESS passed the dbt gate and shows, unmixed, the counts and artifacts of one
   transform that ran to its end on at least one source object. Its delivery manifest is READY
   exactly when that transform wrote a silver file.
   */
  lemma SuccessIsEarned(runId: string, w: World, steps: seq<Step>, end: World)
    requires Init(runId, w) && Behaviour(runId, w, steps, end)
    requires runId in end.runs && end.runs[runId].status == Success
    ensures end.runs[runId].dbtStatus == Some("PASS")
    ensures end.runs[runId].sourceObjects > 0
    ensures exists a :: a in end.completed && Shows(end.runs, runId, a) && Reconciled(a)
    ensures BuildDeliveryManifest(Some(end.runs[runId])).delivery == Ready
            <==> end.runs[runId].outputObjects > 0
  {
    BehaviourKeepsInv(runId, w, steps, end);
    assert Announceable(end, runId, end.client.attempt);
    ReadyMeans(end.runs[runId]);
  }

  /** Until the DAG has received a completed transform and the gate has passed, nothing is announced. */
  lemma NothingAnnouncedEarly(runId: string, w: World, steps: seq<Step>, end: World)
    requires Init(runId, w) && Behaviour(runId, w, steps, end)
    requires !end.client.Publishing?
    ensures runId in end.runs ==> end.runs[runId].status != Success
  {
    BehaviourKeepsInv(runId, w, steps, end);
  }

  /** Nor does the run say that the gate passed before it has, whatever its status. */
  lemma PassMeansPublishing(runId: string, w: World, steps: seq<Step>, end: World)
    requires Init(runId, w) && Behaviour(runId, w, steps, end)
    ensures runId in end.runs && end.runs[runId].dbtStatus == Some("PASS") ==> end.client.Publishing?
  {
    BehaviourKeepsInv(runId, w, steps, end);
  }

  /** A reported failure of the gate shows at once, and announces nothing. */
  lemma GateFailureShows(runId: string, w: World, now: int, message: string)
    requires Inv(runId, w) && Enabled(runId, w, PatchGateFailed(now, message))
    ensures var row := Next(runId, w, PatchGateFailed(now, message)).runs[runId];
            && row.status == Failed && row.dbtStatus == Some("FAIL") && row.errorMessage == Some(message)
            && SameReport(w.runs[runId], row)
  {
    VerdictsShow(w.runs[runId], message, now);
  }

  /**
   The reverse guarantee does not exist: a transform may complete and its run still never be
   announced. If the response is lost and the retry finds nothing new, the DAG skips.
   */
  lemma CompletedButNeverAnnounced(runId: string, a: Attempt)
    requires Reconciled(a)
    ensures exists w, steps, end ::
              && Init(runId, w) && Behaviour(runId, w, steps, end)
              && end.completed == [a] && end.client == Skipping
              && runId in end.runs && end.runs[runId].status == NoData
              && end.runs[runId].acceptedRows == a.acceptedRows && end.runs[runId].sourceObjects == 0
  {
    var lost := ResponseLost(runId, a);
    var end := RetryFindsNothing(runId, lost);
    var w, steps :| Init(runId, w) && Behaviour(runId, w, steps, end);
  }

  /**
   Nothing is asked of the others: the runner may die at any moment and leaves the ledger as it is, other
   clients may take the lock whenever it is free, and may do anything to other runs.
   */
  lemma OthersAreFree(runId: string, w: World, runs: Runs)
    requires runId in w.runs
    ensures Enabled(runId, w, RunnerCrash) && Next(runId, w, RunnerCrash).runs == w.runs
    ensures Enabled(runId, Next(runId, w, RunnerCrash), OtherAcquires)
    ensures Enabled(runId, w, OtherRuns(runs[runId := w.runs[runId]]))
  {
  }

  /** The states the protocol can reach. */
  ghost predicate Reachable(runId: string, w: World) {
    exists start, steps :: Init(runId, start) && Behaviour(runId, start, steps, w)
  }

  lemma Extend(runId: string, w: World, step: Step) returns (t: World)
    requires Reachable(runId, w) && Enabled(runId, w, step)
    ensures t == Next(runId, w, step) && Reachable(runId, t)
  {
    t := Next(runId, w, step);
    var start, steps :| Init(runId, start) && Behaviour(runId, start, steps, w);
    assert [step][1..] == [] && Behaviour(runId, t, [], t);
    Chain(runId, start, steps, w, [step], t);
  }

  /** A first attempt inside the runner. */
  lemma FirstAttempt(runId: string) returns (w: World)
    ensures Reachable(runId, w)
    ensures w == World(map[], HeldBy(0, Entered), map[], Transforming(1, Some(0)), [])
  {
    w := World(map[], Free, map[], Transforming(0, None), []);
    assert Init(runId, w) && Behaviour(runId, w, [], w);
    w := Extend(runId, w, SendTransform);
  }

  lemma AttemptCompletes(runId: string, w0: World, a: Attempt) returns (w: World)
    requires Reconciled(a) && Reachable(runId, w0)
    requires w0 == World(map[], HeldBy(0, Entered), map[], Transforming(1, Some(0)), [])
    ensures Reachable(runId, w)
    ensures w == World(w.runs, HeldBy(0, Written(Completed(a))), map[], Transforming(1, Some(0)), [a])
    ensures runId in w.runs && w.runs[runId].acceptedRows == a.acceptedRows
  {
    w := Extend(runId, w0, WriteStart(1));
    w := Extend(runId, w, WriteTransformed(2, a));
  }

  /** The transform completes after the DAG has given up waiting. */
  lemma ResponseLost(runId: string, a: Attempt) returns (w: World)
    requires Reconciled(a)
    ensures Reachable(runId, w)
    ensures w.completed == [a] && w.lock.Free? && w.client == Transforming(1, None) && w.answers.Keys == {0}
    ensures runId in w.runs && w.runs[runId].acceptedRows == a.acceptedRows
  {
    w := FirstAttempt(runId);
    w := AttemptCompletes(runId, w, a);
    w := Extend(runId, w, GiveUp);
    w := Extend(runId, w, Answer);
  }

  lemma RetryFindsNothing(runId: string, w0: World) returns (w: World)
    requires Reachable(runId, w0) && w0.lock.Free? && w0.client == Transforming(1, None) && runId in w0.runs
    ensures Reachable(runId, w) && w.completed == w0.completed && w.client == Skipping
    ensures runId in w.runs && w.runs[runId].status == NoData && w.runs[runId].sourceObjects == 0
    ensures w.runs[runId].acceptedRows == w0.runs[runId].acceptedRows
  {
    w := Extend(runId, w0, SendTransform);
    w := Extend(runId, w, WriteStart(3));
    w := Extend(runId, w, WriteNoData(4, 0.0));
    w := Extend(runId, w, Answer);
    w := Extend(runId, w, Receive);
  }

  lemma {:induction false} Chain(runId: string, w: World, first: seq<Step>, middle: World, second: seq<Step>,
                                 end: World)
    requires Behaviour(runId, w, first, middle) && Behaviour(runId, middle, second, end)
    ensures Behaviour(runId, w, first + second, end)
    decreases |first|
  {
    if first == [] {
      assert first + second == second;
    } else {
      Chain(runId, Next(runId, w, first[0]), first[1..], middle, second, end);
      assert (first + second)[1..] == first[1..] + second;
    }
  }

  lemma Prepend(runId: string, w: World, step: Step, rest: seq<Step>, end: World)
    requires Enabled(runId, w, step) && Behaviour(runId, Next(runId, w, step), rest, end)
    ensures Behaviour(runId, w, [step] + rest, end)
  {
    assert ([step] + rest)[1..] == rest;
  }
}
