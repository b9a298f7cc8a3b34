/**
 What one row that the warehouse refuses does to the object that holds it: as long as no later copy
 of its event takes its place, the object is never loaded, and neither is anything that a request
 selects together with it.
 */
module PoisonedObject {
  import opened Base
  import opened Observations
  import KeyFlattening
  import Dedup
  import opened Transform
  import opened Pipeline

  /** Every row of the event that the warehouse would take is older than this one. */
  ghost predicate OnlyOlder(rows: seq<Row>, bad: Row) {
    forall r | r in rows && r.eventId == bad.eventId && Checks(r) :: r.ingestedAt < bad.ingestedAt
  }

  /** The bad row is in the object, nothing shadows it, and no object holds a copy that could replace it. */
  ghost predicate Stuck(objects: map<string, seq<Row>>, key: string, bad: Row) {
    && key in objects && bad in objects[key]
    && (forall k | k in objects && KeyFlattening.Flatten(k) == KeyFlattening.Flatten(key) :: k == key)
    && (forall k | k in objects :: OnlyOlder(objects[k], bad))
  }

  /** It stays so through the run. */
  ghost predicate StaysStuck(s: State, steps: seq<Step>, key: string, bad: Row)
    decreases |steps|
  {
    && Stuck(s.writer.objects, key, bad)
    && (steps != [] ==> Enabled(s, steps[0]) && StaysStuck(Next(s, steps[0]), steps[1..], key, bad))
  }

  ghost predicate FilesStuck(keys: seq<string>, files: Files, key: string, bad: Row) {
    && key in keys
    && (KeyFlattening.Flatten(key) in files ==> bad in files[KeyFlattening.Flatten(key)])
    && (forall f | f in files :: OnlyOlder(files[f], bad))
  }

  /** A job that takes the object has not got past it. */
  ghost predicate JobStuck(job: Job, key: string, bad: Row) {
    job.prefix <= key ==>
      match job.stage
      case Entered => true
      case Listed(all) => key in all
      case Working(keys, files) => FilesStuck(keys, files, key, bad)
      case Loading(keys, files, _) => FilesStuck(keys, files, key, bad)
      case Loaded => false
  }

  ghost predicate StuckInv(s: State, n: nat, key: string, bad: Row) {
    && key !in s.manifest
    && n <= |s.commits|
    && (forall j | j in s.jobs :: JobStuck(s.jobs[j], key, bad))
    && (forall i | n <= i < |s.commits| :: !(s.commits[i].prefix <= key))
  }

  lemma StuckFrame(keys: seq<string>, files: Files, key: string, bad: Row)
    requires AllFetched(keys, files) && FilesStuck(keys, files, key, bad)
    ensures bad in Frame(keys, files) && OnlyOlder(Frame(keys, files), bad)
  {
    FrameRows(keys, files, bad);
    forall r | r in Frame(keys, files) && r.eventId == bad.eventId && Checks(r)
      ensures r.ingestedAt < bad.ingestedAt
    {
      FrameRows(keys, files, r);
      var k :| k in keys && r in files[KeyFlattening.Flatten(k)];
      assert OnlyOlder(files[KeyFlattening.Flatten(k)], bad);
    }
  }

  /** No load of these files can commit, whatever ties Spark breaks. */
  lemma StuckFilesCannotLoad(keys: seq<string>, files: Files, key: string, bad: Row)
    requires AllFetched(keys, files) && FilesStuck(keys, files, key, bad)
    ensures !Dedup.CanLoad(Frame(keys, files))
  {
    var frame := Frame(keys, files);
    StuckFrame(keys, files, key, bad);
    assert bad.eventId in Ids(frame);
    assert forall r :: !Dedup.LoadableCopy(frame, bad.eventId, r);
    Dedup.FrameCanLoad(frame);
  }

  lemma CommittingJobIsElsewhere(job: Job, latest: seq<Row>, key: string, bad: Row)
    requires job.stage.Loading? && AllFetched(job.stage.objects, job.stage.files) && JobStuck(job, key, bad)
    requires Dedup.LatestPerId(Frame(job.stage.objects, job.stage.files), latest) && forall r | r in latest :: Checks(r)
    ensures !(job.prefix <= key)
  {
    if job.prefix <= key {
      StuckFilesCannotLoad(job.stage.objects, job.stage.files, key, bad);
    }
  }

  lemma StagedStaysStuck(s: State, j: nat, stage: Stage, n: nat, key: string, bad: Row)
    requires StuckInv(s, n, key, bad) && j in s.jobs && JobStuck(s.jobs[j].(stage := stage), key, bad)
    ensures StuckInv(Staged(s, j, stage), n, key, bad)
  {
  }

  lemma CommittingIsElsewhere(s: State, step: Step, n: nat, key: string, bad: Row)
    requires JobsInv(s) && StuckInv(s, n, key, bad) && Enabled(s, step) && step.CommitLoad?
    ensures !(s.jobs[step.job].prefix <= key) && key !in Elements(s.jobs[step.job].stage.objects)
  {
    var job := s.jobs[step.job];
    assert JobInv(s.writer.objects, s.manifest, job) && JobStuck(job, key, bad);
    CommittingJobIsElsewhere(job, step.latest, key, bad);
    assert key !in job.stage.objects;
  }

  lemma CommitOfOthers(s: State, step: Step, n: nat, key: string, bad: Row)
    requires JobsInv(s) && StuckInv(s, n, key, bad) && Enabled(s, step) && step.CommitLoad?
    ensures StuckInv(Next(s, step), n, key, bad)
  {
    CommittingIsElsewhere(s, step, n, key, bad);
    LoadedKeys(s, step);
    StagedStaysStuck(s, step.job, Loaded, n, key, bad);
  }

  lemma FilterJob(s: State, j: nat, n: nat, key: string, bad: Row)
    requires StuckInv(s, n, key, bad) && Enabled(s, Filter(j))
    ensures StuckInv(Next(s, Filter(j)), n, key, bad)
  {
    assert JobStuck(s.jobs[j], key, bad);
    UnprocessedKeys(s.jobs[j].stage.all, s.manifest.Keys);
    StagedStaysStuck(s, j, Next(s, Filter(j)).jobs[j].stage, n, key, bad);
  }

  lemma FetchJob(s: State, j: nat, k: string, n: nat, key: string, bad: Row)
    requires Stuck(s.writer.objects, key, bad) && StuckInv(s, n, key, bad) && Enabled(s, Fetch(j, k))
    ensures StuckInv(Next(s, Fetch(j, k)), n, key, bad)
  {
    assert JobStuck(s.jobs[j], key, bad);
    StagedStaysStuck(s, j, Next(s, Fetch(j, k)).jobs[j].stage, n, key, bad);
  }

  lemma StepStaysStuck(s: State, step: Step, n: nat, key: string, bad: Row)
    requires JobsInv(s) && Stuck(s.writer.objects, key, bad) && StuckInv(s, n, key, bad) && Enabled(s, step)
    ensures StuckInv(Next(s, step), n, key, bad)
  {
    match step
    case WriterStep(_) =>
    case Request(_, _, _) =>
    case List(j, all) => StagedStaysStuck(s, j, Listed(all), n, key, bad);
    case Filter(j) => FilterJob(s, j, n, key, bad);
    case Fetch(j, k) => FetchJob(s, j, k, n, key, bad);
    case BeginLoad(j, _) =>
      assert JobStuck(s.jobs[j], key, bad);
      StagedStaysStuck(s, j, Next(s, step).jobs[j].stage, n, key, bad);
    case CommitLoad(_, _, _, _) => CommitOfOthers(s, step, n, key, bad);
    case Leave(_) =>
    case RunnerCrash =>
  }

  lemma {:induction false} RunStaysStuck(s: State, steps: seq<Step>, t: State, n: nat, key: string, bad: Row)
    requires Inv(s) && Behaviour(s, steps, t) && StaysStuck(s, steps, key, bad) && StuckInv(s, n, key, bad)
    ensures StuckInv(t, n, key, bad)
    decreases |steps|
  {
    if steps != [] {
      StepStaysStuck(s, steps[0], n, key, bad);
      StepKeepsInv(s, steps[0]);
      RunStaysStuck(Next(s, steps[0]), steps[1..], t, n, key, bad);
    }
  }

  /**
   A row the warehouse refuses keeps its object out for good: in every run during which no loadable
   copy of its event, ingested as late, is stored anywhere, the object is never listed in the manifest,
   and no request whose prefix takes the object, forced or not, ever commits.
   */
  lemma PoisonedObjectNeverLoads(s: State, steps: seq<Step>, t: State, key: string, bad: Row)
    requires Reachable(s) && s.jobs == map[] && key !in s.manifest
    requires Behaviour(s, steps, t) && StaysStuck(s, steps, key, bad)
    ensures !Checks(bad) && key !in t.manifest
    ensures |s.commits| <= |t.commits|
    ensures forall i | |s.commits| <= i < |t.commits| :: !(t.commits[i].prefix <= key)
  {
    ReachableInv(s);
    assert OnlyOlder(s.writer.objects[key], bad);
    RunStaysStuck(s, steps, t, |s.commits|, key, bad);
  }
}
