/**
 What the Airflow DAG does after a transform: the dbt quality gate and publishing. Each
 attempt of a task is a method over the database behind the control API; `Link` says what becomes
 of its PATCH. Every attempt is shown to be steps of the publishing protocol.
 */
module DagTasks {
  import opened Base
  import opened RunLedger
  import opened Observations
  import PostgresDatabase
  import SilverKeys
  import P = Publishing

  /** The response of the transform request. */
  datatype Transform = NoNewData | Loaded(attempt: Attempt)

  /** How a dbt command ends. */
  datatype Command = Succeeds | ExitsNonZero(stdout: string, stderr: string) | TimesOut

  /** Whether a PATCH reaches the control API, whether its response comes back, and the clock there. */
  datatype Link = Link(delivered: bool, answered: bool, now: int)

  datatype GateTry = GateTry(build: Command, freshness: Command, link: Link)

  datatype Quality = Skipped | Pass

  /** Retries of every task: it is attempted once more than that. */
  const RETRIES := 2

  predicate Acknowledged(link: Link) {
    link.delivered && link.answered
  }

  predicate Passes(try: GateTry) {
    try.build.Succeeds? && try.freshness.Succeeds?
  }

  /** The last n characters, or all if there are fewer. */
  function Tail(s: string, n: nat): (t: string)
    ensures |t| == (if |s| <= n then |s| else n) && s[|s| - |t|..] == t
  {
    if |s| <= n then s else s[|s| - n..]
  }

  // ---- Run ids ------------------------------------------------------------------------------

  predicate SafeChar(c: char) {
    AlphaNumeric(c) || c == '_' || c == '.' || c == '-'
  }

  predicate SafeText(s: string) {
    |s| <= 100 && forall i | 0 <= i < |s| :: SafeChar(s[i])
  }

  /** The run id made of Airflow's: other characters become hyphens, and what is too long is cut. */
  function SafeRunId(value: string): string {
    var clean := seq(|value|, i requires 0 <= i < |value| => if SafeChar(value[i]) then value[i] else '-');
    if |clean| <= 100 then clean else clean[..100]
  }

  /**
   The id is always safe, and the one it was made of exactly when that was safe already. So it holds no
   slash, and the silver files of two runs with different ids have different keys.
   */
  lemma SafeRunIds(value: string, other: string, uuid: string, i: nat, j: nat)
    ensures SafeText(SafeRunId(value)) && (SafeRunId(value) == value <==> SafeText(value))
    ensures SilverKeys.Key(SafeRunId(value), uuid, i) == SilverKeys.Key(SafeRunId(other), uuid, j) ==>
              SafeRunId(value) == SafeRunId(other) && i == j
  {
    var a, b := SafeRunId(value), SafeRunId(other);
    if SilverKeys.Key(a, uuid, i) == SilverKeys.Key(b, uuid, j) {
      SilverKeys.KeyInjective(a, uuid, i, b, uuid, j);
    }
  }

  // ---- The quality gate -----------------------------------------------------------------------

  /** What an attempt of the gate sends to the ledger, if anything. */
  function GateReport(transform: Transform, try: GateTry): Option<Finish> {
    if transform.NoNewData? then Some(SkippedFinish())
    else
      match if try.build.Succeeds? then try.freshness else try.build
      case ExitsNonZero(stdout, stderr) => Some(GateFailedFinish(Tail(Tail(stdout, 1500) + Tail(stderr, 1500), 2000)))
      case _ => None
  }

  /** The gate reaches a command that exits with an error. */
  predicate CommandFails(try: GateTry) {
    try.build.ExitsNonZero? || (try.build.Succeeds? && try.freshness.ExitsNonZero?)
  }

  /** The command whose error the gate reports. */
  function Failing(try: GateTry): Command {
    if try.build.ExitsNonZero? then try.build else try.freshness
  }

  function Shorter(a: nat, b: nat): nat {
    if a <= b then a else b
  }

  /** At most 2000 characters: the last 1500 of stderr, and before them as much of the end of stdout as fits. */
  ghost predicate EndsOf(message: string, stdout: string, stderr: string) {
    var errors := Shorter(1500, |stderr|);
    && |message| == Shorter(2000, Shorter(1500, |stdout|) + errors) && errors <= |message|
    && message[|message| - errors..] == stderr[|stderr| - errors..]
    && |message| - errors <= |stdout| && message[..|message| - errors] == stdout[|stdout| - (|message| - errors)..]
  }

  lemma MessageEnds(stdout: string, stderr: string)
    ensures EndsOf(Tail(Tail(stdout, 1500) + Tail(stderr, 1500), 2000), stdout, stderr)
  {
    var out, err := Tail(stdout, 1500), Tail(stderr, 1500);
    var message := Tail(out + err, 2000);
    EndOfBoth(out, err, 2000);
    EndOfEnd(stdout, 1500, |message| - |err|);
    PartsEnd(message, out, err, stdout, stderr);
  }

  lemma PartsEnd(message: string, out: string, err: string, stdout: string, stderr: string)
    requires |out| == Shorter(1500, |stdout|) && |err| == Shorter(1500, |stderr|) && err == stderr[|stderr| - |err|..]
    requires |message| == Shorter(2000, |out| + |err|)
    requires var m := |message| - |err|;
             m >= 0 && message[m..] == err && message[..m] == stdout[|stdout| - m..]
    ensures EndsOf(message, stdout, stderr)
  {
  }

  lemma EndOfBoth(out: string, err: string, n: nat)
    requires |err| <= n
    ensures var message := Tail(out + err, n);
            var m := |message| - |err|;
            0 <= m <= |out| && message[..m] == out[|out| - m..] && message[m..] == err
  {
  }

  lemma EndOfEnd(s: string, n: nat, m: nat)
    requires m <= |Tail(s, n)|
    ensures Tail(s, n)[|Tail(s, n)| - m..] == s[|s| - m..]
  {
  }

  /** What an attempt of the gate leaves of the run: a verdict over an unchanged report, or the run as it was. */
  ghost predicate ShowsVerdict(before: RunRow, row: RunRow, transform: Transform, try: GateTry) {
    if try.link.delivered && transform.NoNewData? then
      row.status == NoData && row.dbtStatus == Some("SKIPPED") && row.errorMessage.None? && SameReport(before, row)
    else if try.link.delivered && CommandFails(try) then
      && row.status == Failed && row.dbtStatus == Some("FAIL") && SameReport(before, row)
      && row.errorMessage.Some? && EndsOf(row.errorMessage.value, Failing(try).stdout, Failing(try).stderr)
    else row == before
  }

  lemma VerdictShows(runs: Runs, runId: string, transform: Transform, try: GateTry)
    requires runId in runs
    ensures var after := match GateReport(transform, try)
                         case None => runs
                         case Some(finish) =>
                           if try.link.delivered then FinishRun(runs, runId, finish, try.link.now) else runs;
            && after.Keys == runs.Keys && (forall id | id in runs && id != runId :: after[id] == runs[id])
            && ShowsVerdict(runs[runId], after[runId], transform, try)
  {
    var finish := GateReport(transform, try);
    if CommandFails(try) {
      MessageEnds(Failing(try).stdout, Failing(try).stderr);
    }
    var message := if finish.Some? then finish.value.errorMessage else None;
    VerdictsShow(runs[runId], if message.Some? then message.value else "", try.link.now);
  }

  /** The run tells which sync it came from. */
  ghost predicate NamesSync(row: RunRow, sync: SyncReport) {
    && SOURCE_SYNC_ID in row.details && row.details[SOURCE_SYNC_ID] == Text(sync.syncId)
    && SOURCE_ROWS in row.details && row.details[SOURCE_ROWS] == Number(sync.inputRows)
    && SOURCE_AREAS in row.details && row.details[SOURCE_AREAS] == Names(sync.areaNames)
  }

  /** The run stands as failed at its gate. */
  ghost predicate Condemned(runs: Runs, runId: string) {
    runId in runs && runs[runId].status == Failed && runs[runId].dbtStatus == Some("FAIL")
  }

  /** Other runs are as they were. */
  ghost predicate OthersStay(before: Runs, after: Runs, runId: string) {
    before.Keys == after.Keys && forall id | id in before && id != runId :: after[id] == before[id]
  }

  /** The run is not announced, and if the gate was skipped it says so; other runs are as they were. */
  ghost predicate Unannounced(before: Runs, after: Runs, runId: string, quality: Option<Quality>) {
    && !Announced(after, runId) && OthersStay(before, after, runId)
    && (quality == Some(Skipped) ==> runId in after && after[runId].status == NoData)
  }

  /** The run is announced if a PATCH has arrived, and then names its sync. */
  ghost predicate Told(runs: Runs, runId: string, sync: SyncReport, arrived: bool) {
    (Announced(runs, runId) <==> arrived) && (arrived ==> NamesSync(runs[runId], sync))
  }

  /** When no attempt has passed, the run says what the last one reported. */
  ghost predicate LastReported(transform: Transform, try: GateTry, quality: Option<Quality>, runs: Runs,
                               runId: string) {
    quality.None? && transform.Loaded? && CommandFails(try) && try.link.delivered ==> Condemned(runs, runId)
  }

  ghost predicate Announced(runs: Runs, runId: string) {
    runId in runs && runs[runId].status == Success
  }

  /** The DAG has the response of its transform and stands before its quality gate. */
  ghost predicate BeforeGate(runId: string, w: P.World, transform: Transform, runs: Runs) {
    && P.Inv(runId, w) && w.runs == runs && runId in runs
    && w.client == if transform.NoNewData? then P.Skipping else P.Gating(transform.attempt)
  }

  ghost predicate BeforePublishing(runId: string, w: P.World, attempt: Attempt, runs: Runs) {
    P.Inv(runId, w) && w.runs == runs && runId in runs && w.client == P.Publishing(attempt)
  }

  /** A run of the protocol that led past the gate, or leaves the DAG before it. */
  ghost predicate GateRun(runId: string, w: P.World, steps: seq<P.Step>, w': P.World, transform: Transform,
                          quality: Option<Quality>, before: Runs, runs: Runs) {
    && P.Behaviour(runId, w, steps, w') && Unannounced(before, runs, runId, quality)
    && if quality == Some(Pass) then transform.Loaded? && BeforePublishing(runId, w', transform.attempt, runs)
       else BeforeGate(runId, w', transform, runs)
  }

  /** A run of the protocol that led to publishing; other runs are as they were. */
  ghost predicate PublishingRun(runId: string, w: P.World, steps: seq<P.Step>, w': P.World, attempt: Attempt,
                                before: Runs, runs: Runs) {
    P.Behaviour(runId, w, steps, w') && BeforePublishing(runId, w', attempt, runs) && OthersStay(before, runs, runId)
  }

  lemma OneStep(runId: string, w: P.World, step: P.Step)
    requires P.Inv(runId, w) && P.Enabled(runId, w, step)
    ensures P.Behaviour(runId, w, [step], P.Next(runId, w, step))
    ensures P.Inv(runId, P.Next(runId, w, step))
  {
    P.Prepend(runId, w, step, [], P.Next(runId, w, step));
    assert [step] + [] == [step];
    P.StepKeepsInv(runId, w, step);
  }

  /** Whatever happened before, the DAG reaches its gate in the state its methods start from. */
  lemma GateIsReached(runId: string, w: P.World, steps: seq<P.Step>, end: P.World)
    requires P.Init(runId, w) && P.Behaviour(runId, w, steps, end)
    ensures end.client.Skipping? ==> BeforeGate(runId, end, NoNewData, end.runs)
    ensures end.client.Gating? ==> BeforeGate(runId, end, Loaded(end.client.attempt), end.runs)
  {
    P.BehaviourKeepsInv(runId, w, steps, end);
  }

  class Dag {
    const runId: string
    const db: PostgresDatabase.Database

    constructor (runId: string, db: PostgresDatabase.Database)
      ensures this.runId == runId && this.db == db
    {
      this.runId, this.db := runId, db;
    }

    /** PATCH /ops/runs/{run_id}; it raises unless a response comes back. */
    method UpdateRun(finish: Finish, link: Link) returns (ok: bool)
      modifies db`runs
      ensures ok == Acknowledged(link)
      ensures db.runs == if link.delivered then FinishRun(old(db.runs), runId, finish, link.now) else old(db.runs)
    {
      if !link.delivered {
        return false;
      }
      db.FinishPipelineRun(runId, finish, link.now);
      return link.answered;
    }

    /** A PATCH that is a step of the protocol if it arrives. */
    method Patch(finish: Finish, link: Link, ghost w: P.World, ghost step: P.Step)
      returns (ok: bool, ghost w': P.World, ghost steps: seq<P.Step>)
      requires P.Inv(runId, w) && w.runs == db.runs && P.Enabled(runId, w, step)
      requires P.Next(runId, w, step) == w.(runs := FinishRun(w.runs, runId, finish, link.now))
      modifies db`runs
      ensures ok == Acknowledged(link) && P.Behaviour(runId, w, steps, w') && P.Inv(runId, w')
      ensures w' == w.(runs := db.runs)
      ensures db.runs == if link.delivered then FinishRun(old(db.runs), runId, finish, link.now) else old(db.runs)
    {
      w', steps := w, [];
      ok := UpdateRun(finish, link);
      if link.delivered {
        w', steps := P.Next(runId, w, step), [step];
        OneStep(runId, w, step);
      }
    }

    /**
     One attempt of dbt_quality_gate; None is a raised exception. It reports a failing command,
     but not one that runs out of time.
     */
    method DbtQualityGate(transform: Transform, try: GateTry, ghost w: P.World)
      returns (quality: Option<Quality>, ghost w': P.World, ghost steps: seq<P.Step>)
      requires BeforeGate(runId, w, transform, db.runs)
      modifies db`runs
      ensures P.Behaviour(runId, w, steps, w')
      ensures quality == Some(Pass) <==> transform.Loaded? && Passes(try)
      ensures quality == Some(Skipped) <==> transform.NoNewData? && Acknowledged(try.link)
      ensures if quality == Some(Pass) then BeforePublishing(runId, w', transform.attempt, db.runs)
              else BeforeGate(runId, w', transform, db.runs)
      ensures db.runs == match GateReport(transform, try)
                         case None => old(db.runs)
                         case Some(finish) =>
                           if try.link.delivered then FinishRun(old(db.runs), runId, finish, try.link.now)
                           else old(db.runs)
      ensures OthersStay(old(db.runs), db.runs, runId)
      ensures ShowsVerdict(old(db.runs)[runId], db.runs[runId], transform, try)
    {
      VerdictShows(db.runs, runId, transform, try);
      w', steps := w, [];
      if transform.NoNewData? {
        var ok;
        ok, w', steps := Patch(SkippedFinish(), try.link, w, P.PatchSkipped(try.link.now));
        return if ok then Some(Skipped) else None, w', steps;
      }
      var failing := if try.build.Succeeds? then try.freshness else try.build;
      match failing
      case Succeeds =>
        OneStep(runId, w, P.GatePasses);
        return Some(Pass), P.Next(runId, w, P.GatePasses), [P.GatePasses];
      case TimesOut =>
        return None, w', steps;
      case ExitsNonZero(stdout, stderr) =>
        var message := Tail(Tail(stdout, 1500) + Tail(stderr, 1500), 2000);
        var ok;
        ok, w', steps := Patch(GateFailedFinish(message), try.link, w, P.PatchGateFailed(try.link.now, message));
        return None, w', steps;
    }

    /** One attempt of publish_success; false is a raised exception. */
    method PublishSuccess(attempt: Attempt, sync: SyncReport, link: Link, ghost w: P.World)
      returns (ok: bool, ghost w': P.World, ghost steps: seq<P.Step>)
      requires BeforePublishing(runId, w, attempt, db.runs)
      modifies db`runs
      ensures P.Behaviour(runId, w, steps, w') && BeforePublishing(runId, w', attempt, db.runs)
      ensures OthersStay(old(db.runs), db.runs, runId)
      ensures ok == Acknowledged(link)
      ensures db.runs == if link.delivered then FinishRun(old(db.runs), runId, SuccessFinish(sync), link.now)
                         else old(db.runs)
      ensures Announced(db.runs, runId) <==> Announced(old(db.runs), runId) || link.delivered
      ensures if link.delivered
              then ShowsAnnouncement(old(db.runs)[runId], db.runs[runId], sync)
              else db.runs == old(db.runs)
    {
      SuccessShows(db.runs[runId], sync, link.now);
      ok, w', steps := Patch(SuccessFinish(sync), link, w, P.PatchSuccess(link.now, sync));
    }

    method GateAgain(transform: Transform, try: GateTry, ghost w: P.World, ghost before: Runs, ghost here: P.World,
                     ghost done: seq<P.Step>)
      returns (quality: Option<Quality>, ghost w': P.World, ghost steps: seq<P.Step>)
      requires GateRun(runId, w, done, here, transform, None, before, db.runs)
      modifies db`runs
      ensures GateRun(runId, w, steps, w', transform, quality, before, db.runs)
      ensures quality == Some(Pass) <==> transform.Loaded? && Passes(try)
      ensures quality == Some(Skipped) <==> transform.NoNewData? && Acknowledged(try.link)
      ensures LastReported(transform, try, quality, db.runs, runId)
    {
      ghost var more;
      quality, w', more := DbtQualityGate(transform, try, here);
      P.Chain(runId, w, done, here, more, w');
      steps := done + more;
    }

    /** The quality gate with its retries. */
    method Gate(transform: Transform, tries: seq<GateTry>, ghost w: P.World)
      returns (quality: Option<Quality>, ghost w': P.World, ghost steps: seq<P.Step>)
      requires BeforeGate(runId, w, transform, db.runs) && |tries| == 1 + RETRIES
      modifies db`runs
      ensures GateRun(runId, w, steps, w', transform, quality, old(db.runs), db.runs)
      ensures quality == Some(Pass) <==> transform.Loaded? && exists t :: t in tries && Passes(t)
      ensures quality == Some(Skipped) <==> transform.NoNewData? && exists t :: t in tries && Acknowledged(t.link)
      ensures quality.None? ==> LastReported(transform, tries[RETRIES], quality, db.runs, runId)
    {
      quality, w', steps := None, w, [];
      var i := 0;
      while i < |tries| && quality.None?
        invariant 0 <= i <= |tries| && GateRun(runId, w, steps, w', transform, quality, old(db.runs), db.runs)
        invariant quality == Some(Pass) <==> transform.Loaded? && exists k :: 0 <= k < i && Passes(tries[k])
        invariant quality == Some(Skipped) <==>
                    transform.NoNewData? && exists k :: 0 <= k < i && Acknowledged(tries[k].link)
        invariant i > 0 ==> LastReported(transform, tries[i - 1], quality, db.runs, runId)
      {
        quality, w', steps := GateAgain(transform, tries[i], w, old(db.runs), w', steps);
        i := i + 1;
      }
      assert quality.Some? ==> quality.value.Pass? || quality.value.Skipped?;
    }

    /** One more attempt at the end of a run of the protocol. */
    method PublishAgain(attempt: Attempt, sync: SyncReport, link: Link, ghost w: P.World, ghost before: Runs,
                        ghost here: P.World, ghost done: seq<P.Step>, ghost arrived: bool)
      returns (ok: bool, ghost w': P.World, ghost steps: seq<P.Step>)
      requires PublishingRun(runId, w, done, here, attempt, before, db.runs) && Told(db.runs, runId, sync, arrived)
      modifies db`runs
      ensures PublishingRun(runId, w, steps, w', attempt, before, db.runs)
      ensures ok == Acknowledged(link) && Told(db.runs, runId, sync, arrived || link.delivered)
    {
      ghost var more;
      ok, w', more := PublishSuccess(attempt, sync, link, here);
      P.Chain(runId, w, done, here, more, w');
      steps := done + more;
    }

    /** Publishing with its retries. */
    method Publish(attempt: Attempt, sync: SyncReport, links: seq<Link>, ghost w: P.World)
      returns (ok: bool, ghost w': P.World, ghost steps: seq<P.Step>)
      requires BeforePublishing(runId, w, attempt, db.runs) && |links| == 1 + RETRIES
      requires !Announced(db.runs, runId)
      modifies db`runs
      ensures PublishingRun(runId, w, steps, w', attempt, old(db.runs), db.runs)
      ensures ok <==> exists l :: l in links && Acknowledged(l)
      ensures Announced(db.runs, runId) <==> exists l :: l in links && l.delivered
      ensures Announced(db.runs, runId) ==> NamesSync(db.runs[runId], sync)
    {
      ok, w', steps := false, w, [];
      ghost var arrived := false;
      var i := 0;
      while i < |links| && !ok
        invariant 0 <= i <= |links| && PublishingRun(runId, w, steps, w', attempt, old(db.runs), db.runs)
        invariant ok <==> exists k :: 0 <= k < i && Acknowledged(links[k])
        invariant arrived <==> exists k :: 0 <= k < i && links[k].delivered
        invariant Told(db.runs, runId, sync, arrived)
      {
        ok, w', steps := PublishAgain(attempt, sync, links[i], w, old(db.runs), w', steps, arrived);
        arrived := arrived || links[i].delivered;
        i := i + 1;
      }
    }

    /**
     What the DAG does with a transform response, retries included. The run is announced exactly
     when there was new data, some attempt of the gate passed and some publishing PATCH arrived.
     The DAG run ends well exactly when the gate was skipped or passed and the last word was
     acknowledged, and only if the ledger agrees; it may end badly although the run is announced,
     when every response is lost. All of it is a run of the publishing protocol.
     */
    method AfterTransform(transform: Transform, tries: seq<GateTry>, sync: SyncReport, links: seq<Link>,
                          ghost w: P.World)
      returns (green: bool, ghost w': P.World, ghost steps: seq<P.Step>)
      requires BeforeGate(runId, w, transform, db.runs)
      requires |tries| == |links| == 1 + RETRIES
      modifies db`runs
      ensures P.Behaviour(runId, w, steps, w') && w'.runs == db.runs && OthersStay(old(db.runs), db.runs, runId)
      ensures Announced(db.runs, runId) <==>
                && transform.Loaded?
                && (exists t :: t in tries && Passes(t))
                && (exists l :: l in links && l.delivered)
      ensures green <==>
                if transform.NoNewData? then exists t :: t in tries && Acknowledged(t.link)
                else (exists t :: t in tries && Passes(t)) && exists l :: l in links && Acknowledged(l)
      ensures green ==>
                if transform.NoNewData? then runId in db.runs && db.runs[runId].status == NoData
                else Announced(db.runs, runId)
      // A run whose gate never passes says what its last attempt reported.
      ensures transform.Loaded? && (forall t | t in tries :: !Passes(t)) ==>
                LastReported(transform, tries[RETRIES], None, db.runs, runId)
      ensures Announced(db.runs, runId) ==>
                && P.Shows(db.runs, runId, transform.attempt) && NamesSync(db.runs[runId], sync)
                && db.runs[runId].dbtStatus == Some("PASS")
                && (BuildDeliveryManifest(Some(db.runs[runId])).delivery == Ready
                    <==> transform.attempt.outputObjects > 0)
    {
      var quality;
      quality, w', steps := Gate(transform, tries, w);
      if quality == Some(Pass) {
        ghost var before, more := w', [];
        green, w', more := Publish(transform.attempt, sync, links, w');
        P.Chain(runId, w, steps, before, more, w');
        steps := steps + more;
        ReadyMeans(db.runs[runId]);
      } else {
        assert quality.Some? ==> quality.value.Pass? || quality.value.Skipped?;
        green := quality == Some(Skipped);
      }
    }
  }
}
