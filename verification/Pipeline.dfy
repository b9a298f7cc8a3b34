/**
 The whole path from log to warehouse: the bronze writer, other processes that store objects,
 and any number of concurrent transform requests, interleaved step by step. The job lock is the
 bare lock of the runner; that it excludes is proved, not assumed.
 */
module Pipeline {
  import opened Base
  import opened Observations
  import opened KeyFlattening
  import Dedup
  import opened Warehouse
  import Clock
  import opened Transform
  import B = BronzeProtocol
  import opened BronzeAccounting

  /** Where a request stands between acquiring and releasing the lock. */
  datatype Stage =
    | Entered
    | Listed(all: seq<string>)
    | Working(objects: seq<string>, files: Files)
    | Loading(objects: seq<string>, files: Files, start: int)  // the load transaction is open
    | Loaded

  datatype Job = Job(prefix: string, force: bool, stage: Stage)

  /** A load that committed. */
  datatype Commit = Commit(
    job: nat, prefix: string, force: bool, objects: seq<string>, frame: seq<Row>, latest: seq<Row>, at: int)

  datatype State = State(
    writer: B.Writer,
    observations: Table,
    manifest: Manifest,
    locked: bool,
    jobs: map<nat, Job>,
    commits: seq<Commit>
  )

  datatype Step =
    | WriterStep(step: B.Step)
    | Request(job: nat, prefix: string, force: bool)
    | List(job: nat, all: seq<string>)
    | Filter(job: nat)
    | Fetch(job: nat, key: string)
    | BeginLoad(job: nat, now: int)
    | CommitLoad(job: nat, latest: seq<Row>, etags: map<string, string>, runId: string)
    | Leave(job: nat)  // finished, nothing to do, or any exception
    | RunnerCrash

  ghost predicate IsListing(objects: map<string, seq<Row>>, prefix: string, all: seq<string>) {
    NoDup(all) && forall k :: k in all <==> k in objects && prefix <= k
  }

  predicate Busy(stage: Stage) {
    stage.Working? || stage.Loading?
  }

  /** Objects that are loaded or being loaded. */
  ghost predicate Kept(s: State, key: string) {
    key in s.manifest || exists j :: j in s.jobs && Busy(s.jobs[j].stage) && key in s.jobs[j].stage.objects
  }

  ghost predicate Enabled(s: State, step: Step) {
    match step
    case WriterStep(w) =>
      && B.Sane(s.writer) && B.Enabled(s.writer, w)
      // Other processes may store anything; what they replace after it was taken keeps its identities.
      && (w.Put? && w.key in s.writer.objects && Kept(s, w.key) ==> Ids(w.rows) == Ids(s.writer.objects[w.key]))
    case Request(j, _, _) => j !in s.jobs
    case List(j, all) =>
      j in s.jobs && s.jobs[j].stage.Entered? && IsListing(s.writer.objects, s.jobs[j].prefix, all)
    case Filter(j) => j in s.jobs && s.jobs[j].stage.Listed?
    case Fetch(j, key) =>
      j in s.jobs && s.jobs[j].stage.Working? && key in s.jobs[j].stage.objects && key in s.writer.objects
    case BeginLoad(j, _) =>
      && j in s.jobs && s.jobs[j].stage.Working? && s.jobs[j].stage.objects != []
      && AllFetched(s.jobs[j].stage.objects, s.jobs[j].stage.files)
    case CommitLoad(j, latest, _, _) =>
      && j in s.jobs && s.jobs[j].stage.Loading?
      && AllFetched(s.jobs[j].stage.objects, s.jobs[j].stage.files)
      && Dedup.LatestPerId(Frame(s.jobs[j].stage.objects, s.jobs[j].stage.files), latest)
      && (forall r | r in latest :: Checks(r))
    case Leave(j) => j in s.jobs
    case RunnerCrash => true
  }

  ghost function Next(s: State, step: Step): State
    requires Enabled(s, step)
  {
    match step
    case WriterStep(w) => s.(writer := B.Next(s.writer, w))
    case Request(j, prefix, force) =>
      if s.locked then s  // 409
      else s.(locked := true, jobs := s.jobs[j := Job(prefix, force, Entered)])
    case List(j, all) => Staged(s, j, Listed(all))
    case Filter(j) =>
      var all := s.jobs[j].stage.all;
      Staged(s, j, Working(if s.jobs[j].force then all else Unprocessed(all, s.manifest.Keys), map[]))
    case Fetch(j, key) =>
      var stage := s.jobs[j].stage;
      Staged(s, j, Working(stage.objects, stage.files[Flatten(key) := s.writer.objects[key]]))
    case BeginLoad(j, now) =>
      var stage := s.jobs[j].stage;
      Staged(s, j, Loading(stage.objects, stage.files, now))
    case CommitLoad(j, latest, etags, runId) =>
      var stage := s.jobs[j].stage;
      Staged(s, j, Loaded).(
        observations := Upsert(s.observations, latest, stage.start),
        manifest := RecordObjects(s.manifest, Records(stage.objects, stage.files, etags, runId), stage.start),
        commits := s.commits + [CommitOf(j, s.jobs[j], latest)]
      )
    case Leave(j) => s.(locked := false, jobs := s.jobs - {j})
    case RunnerCrash => s.(locked := false, jobs := map[])
  }

  function CommitOf(j: nat, job: Job, latest: seq<Row>): Commit
    requires job.stage.Loading? && AllFetched(job.stage.objects, job.stage.files)
  {
    Commit(j, job.prefix, job.force, job.stage.objects, Frame(job.stage.objects, job.stage.files), latest,
           job.stage.start)
  }

  function Staged(s: State, j: nat, stage: Stage): State
    requires j in s.jobs
  {
    s.(jobs := s.jobs[j := s.jobs[j].(stage := stage)])
  }

  predicate Init(s: State) {
    B.Init(s.writer) && s == State(s.writer, map[], map[], false, map[], [])
  }

  ghost predicate Behaviour(s: State, steps: seq<Step>, end: State)
    decreases |steps|
  {
    if steps == [] then s == end
    else Enabled(s, steps[0]) && Behaviour(Next(s, steps[0]), steps[1..], end)
  }

  // ---- The invariant --------------------------------------------------------------------

  /** The lock is taken exactly while one job is inside, and never by two. */
  ghost predicate LockInv(s: State) {
    && (s.locked <==> s.jobs != map[])
    && forall i, j | i in s.jobs && j in s.jobs :: i == j
  }

  /** The rows have the identities of the object; of a batch, which never changes, they are the object. */
  ghost predicate CopyOf(rows: seq<Row>, objects: map<string, seq<Row>>, k: string) {
    k in objects && Ids(rows) == Ids(objects[k]) && (B.IsBatchKey(k) ==> rows == objects[k])
  }

  /** The local file of k, once there, is a copy of k or of an object that shares its local name. */
  ghost predicate FileInv(objects: map<string, seq<Row>>, keys: seq<string>, files: Files, k: string) {
    Flatten(k) in files ==>
      exists x :: x in keys && Flatten(x) == Flatten(k) && CopyOf(files[Flatten(k)], objects, x)
  }

  ghost predicate FilesInv(objects: map<string, seq<Row>>, keys: seq<string>, files: Files) {
    forall k | k in keys :: k in objects && FileInv(objects, keys, files, k)
  }

  ghost predicate JobInv(objects: map<string, seq<Row>>, manifest: Manifest, job: Job) {
    match job.stage
    case Entered => true
    case Listed(all) => NoDup(all) && forall k | k in all :: k in objects && job.prefix <= k
    case Working(keys, files) => WorkInv(objects, manifest, job, keys, files)
    case Loading(keys, files, _) => WorkInv(objects, manifest, job, keys, files) && AllFetched(keys, files)
    case Loaded => true
  }

  ghost predicate WorkInv(objects: map<string, seq<Row>>, manifest: Manifest, job: Job, keys: seq<string>,
                          files: Files) {
    && NoDup(keys) && FilesInv(objects, keys, files)
    && (forall k | k in keys :: job.prefix <= k)
    && (!job.force ==> forall k | k in keys :: k !in manifest)
  }

  ghost predicate JobsInv(s: State) {
    forall j | j in s.jobs :: JobInv(s.writer.objects, s.manifest, s.jobs[j])
  }

  ghost predicate InListed(objects: map<string, seq<Row>>, manifest: Manifest, id: EventId) {
    exists k :: k in manifest && k in objects && id in Ids(objects[k])
  }

  /** The warehouse holds no identity but those of the objects in the manifest. */
  ghost predicate NothingInvented(objects: map<string, seq<Row>>, observations: Table, manifest: Manifest) {
    && (forall k | k in manifest :: k in objects)
    && (forall id | id in observations :: InListed(objects, manifest, id))
  }

  /** It holds all of them. */
  ghost predicate NothingLost(objects: map<string, seq<Row>>, observations: Table, manifest: Manifest) {
    forall id | InListed(objects, manifest, id) :: id in observations
  }

  /** In no load did two objects share a local file. */
  ghost predicate NamesApart(commits: seq<Commit>) {
    forall i | 0 <= i < |commits| :: DistinctNames(commits[i].objects)
  }

  ghost predicate InObjects(objects: map<string, seq<Row>>, keys: seq<string>, id: EventId) {
    exists k :: k in keys && k in objects && id in Ids(objects[k])
  }

  ghost predicate AllBatches(keys: seq<string>) {
    forall k | k in keys :: B.IsBatchKey(k)
  }

  ghost predicate CommitInv(objects: map<string, seq<Row>>, manifest: Manifest, c: Commit) {
    && Dedup.LatestPerId(c.frame, c.latest)
    && NoDup(c.objects)
    && (forall k | k in c.objects :: k in manifest && k in objects)
    && (forall id | id in Ids(c.frame) :: InObjects(objects, c.objects, id))
    && (DistinctNames(c.objects) ==> forall id | InObjects(objects, c.objects, id) :: id in Ids(c.frame))
    && (AllBatches(c.objects) ==> c.frame == Contents(objects, c.objects))
  }

  ghost predicate Disjoint(a: seq<string>, b: seq<string>) {
    forall k | k in a :: k !in b
  }

  ghost predicate CommitsOf(objects: map<string, seq<Row>>, manifest: Manifest, commits: seq<Commit>) {
    && (forall i | 0 <= i < |commits| :: CommitInv(objects, manifest, commits[i]))
    && (forall i, j | 0 <= i < j < |commits| && !commits[j].force :: Disjoint(commits[i].objects, commits[j].objects))
    && (forall k | k in manifest :: exists i :: 0 <= i < |commits| && k in commits[i].objects)
  }

  ghost predicate CommitsInv(s: State) {
    CommitsOf(s.writer.objects, s.manifest, s.commits)
  }

  ghost predicate TablesInv(s: State) {
    && NothingInvented(s.writer.objects, s.observations, s.manifest)
    && (NamesApart(s.commits) ==> NothingLost(s.writer.objects, s.observations, s.manifest))
  }

  ghost predicate Inv(s: State) {
    B.Inv(s.writer) && LockInv(s) && JobsInv(s) && TablesInv(s) && CommitsInv(s)
  }

  // ---- Steps of the writer --------------------------------------------------------------

  /** How the bucket may change: keys stay, batches stay as they are, kept objects keep their identities. */
  ghost predicate Grows(s: State, b: map<string, seq<Row>>) {
    var a := s.writer.objects;
    forall k | k in a ::
      && k in b
      && (Kept(s, k) ==> Ids(a[k]) == Ids(b[k]))
      && (B.IsBatchKey(k) ==> a[k] == b[k])
  }

  lemma WriterStepGrows(s: State, step: B.Step)
    requires B.Inv(s.writer) && Enabled(s, WriterStep(step))
    ensures Grows(s, B.Next(s.writer, step).objects)
  {
    B.StepKeepsObjects(s.writer, step);
  }

  /** Where keys keep their identities, so do sets of objects. */
  lemma SameInObjects(a: map<string, seq<Row>>, b: map<string, seq<Row>>, keys: seq<string>, id: EventId)
    requires forall k | k in keys && k in a :: k in b && Ids(a[k]) == Ids(b[k])
    requires forall k | k in keys :: k in a
    ensures InObjects(a, keys, id) <==> InObjects(b, keys, id)
  {
    if InObjects(a, keys, id) {
      var k :| k in keys && k in a && id in Ids(a[k]);
      assert k in b && id in Ids(b[k]);
    }
    if InObjects(b, keys, id) {
      var k :| k in keys && k in b && id in Ids(b[k]);
      assert k in a && id in Ids(a[k]);
    }
  }

  lemma GrowthKeepsTables(s: State, b: map<string, seq<Row>>)
    requires TablesInv(s) && Grows(s, b)
    ensures NothingInvented(b, s.observations, s.manifest)
    ensures NamesApart(s.commits) ==> NothingLost(b, s.observations, s.manifest)
  {
    var a := s.writer.objects;
    forall id
      ensures InListed(a, s.manifest, id) <==> InListed(b, s.manifest, id)
    {
      if InListed(a, s.manifest, id) {
        var k :| k in s.manifest && k in a && id in Ids(a[k]);
        assert k in b && Kept(s, k) && id in Ids(b[k]);
      }
      if InListed(b, s.manifest, id) {
        var k :| k in s.manifest && k in b && id in Ids(b[k]);
        assert k in a && Kept(s, k) && id in Ids(a[k]);
      }
    }
  }

  lemma GrowthKeepsCommit(s: State, b: map<string, seq<Row>>, c: Commit)
    requires Grows(s, b) && CommitInv(s.writer.objects, s.manifest, c)
    ensures CommitInv(b, s.manifest, c)
  {
    var a := s.writer.objects;
    assert forall k | k in c.objects :: Kept(s, k);
    forall id
      ensures InObjects(a, c.objects, id) <==> InObjects(b, c.objects, id)
    {
      SameInObjects(a, b, c.objects, id);
    }
    if AllBatches(c.objects) {
      ContentsStay(a, b, c.objects);
    }
  }

  lemma GrowthKeepsFile(a: map<string, seq<Row>>, b: map<string, seq<Row>>, keys: seq<string>, files: Files, k: string)
    requires FileInv(a, keys, files, k)
    requires forall x | x in keys && x in a :: x in b && Ids(a[x]) == Ids(b[x]) && (B.IsBatchKey(x) ==> a[x] == b[x])
    ensures FileInv(b, keys, files, k)
  {
    if Flatten(k) in files {
      var x :| x in keys && Flatten(x) == Flatten(k) && CopyOf(files[Flatten(k)], a, x);
      assert CopyOf(files[Flatten(k)], b, x);
    }
  }

  lemma GrowthKeepsFiles(a: map<string, seq<Row>>, b: map<string, seq<Row>>, keys: seq<string>, files: Files)
    requires FilesInv(a, keys, files)
    requires forall x | x in keys && x in a :: x in b && Ids(a[x]) == Ids(b[x]) && (B.IsBatchKey(x) ==> a[x] == b[x])
    ensures FilesInv(b, keys, files)
  {
    forall k | k in keys
      ensures k in b && FileInv(b, keys, files, k)
    {
      GrowthKeepsFile(a, b, keys, files, k);
    }
  }

  /** Objects a job has taken keep their identities, batches their rows. */
  lemma TakenObjectsStay(s: State, b: map<string, seq<Row>>, j: nat)
    requires Grows(s, b) && j in s.jobs && Busy(s.jobs[j].stage)
    ensures var a := s.writer.objects;
            forall x | x in s.jobs[j].stage.objects && x in a ::
              x in b && Ids(a[x]) == Ids(b[x]) && (B.IsBatchKey(x) ==> a[x] == b[x])
  {
    assert forall x | x in s.jobs[j].stage.objects :: Kept(s, x);
  }

  lemma GrowthKeepsJob(s: State, b: map<string, seq<Row>>, j: nat)
    requires Grows(s, b) && j in s.jobs && JobInv(s.writer.objects, s.manifest, s.jobs[j])
    ensures JobInv(b, s.manifest, s.jobs[j])
  {
    var stage := s.jobs[j].stage;
    if Busy(stage) {
      TakenObjectsStay(s, b, j);
      GrowthKeepsFiles(s.writer.objects, b, stage.objects, stage.files);
    }
  }

  lemma WriterStepKeepsInv(s: State, w: B.Step)
    requires Inv(s) && Enabled(s, WriterStep(w))
    ensures Inv(Next(s, WriterStep(w)))
  {
    var t := Next(s, WriterStep(w));
    B.StepKeepsInv(s.writer, w);
    WriterStepGrows(s, w);
    GrowthKeepsTables(s, t.writer.objects);
    forall j | j in t.jobs
      ensures JobInv(t.writer.objects, t.manifest, t.jobs[j])
    {
      GrowthKeepsJob(s, t.writer.objects, j);
    }
    forall i | 0 <= i < |t.commits|
      ensures CommitInv(t.writer.objects, t.manifest, t.commits[i])
    {
      GrowthKeepsCommit(s, t.writer.objects, s.commits[i]);
    }
  }

  // ---- Steps of the runner --------------------------------------------------------------

  lemma FilterKeepsJob(objects: map<string, seq<Row>>, manifest: Manifest, job: Job)
    requires JobInv(objects, manifest, job) && job.stage.Listed?
    ensures var keys := if job.force then job.stage.all else Unprocessed(job.stage.all, manifest.Keys);
            JobInv(objects, manifest, job.(stage := Working(keys, map[])))
  {
    UnprocessedKeys(job.stage.all, manifest.Keys);
  }

  /** A download replaces the local file of its object, and of those that share its name. */
  lemma FetchKeepsJob(objects: map<string, seq<Row>>, manifest: Manifest, job: Job, key: string)
    requires JobInv(objects, manifest, job) && job.stage.Working? && key in job.stage.objects && key in objects
    ensures JobInv(objects, manifest,
                   job.(stage := Working(job.stage.objects, job.stage.files[Flatten(key) := objects[key]])))
  {
    var files := job.stage.files[Flatten(key) := objects[key]];
    forall k | k in job.stage.objects
      ensures FileInv(objects, job.stage.objects, files, k)
    {
      assert FileInv(objects, job.stage.objects, job.stage.files, k);
      if Flatten(k) == Flatten(key) {
        assert CopyOf(files[Flatten(k)], objects, key);
      }
    }
  }

  /** Where names are apart, every local file is a copy of its own object. */
  lemma OwnFile(objects: map<string, seq<Row>>, keys: seq<string>, files: Files, k: string)
    requires FilesInv(objects, keys, files) && AllFetched(keys, files) && DistinctNames(keys) && k in keys
    ensures CopyOf(files[Flatten(k)], objects, k)
  {
    assert FileInv(objects, keys, files, k);
    var x :| x in keys && Flatten(x) == Flatten(k) && CopyOf(files[Flatten(k)], objects, x);
    assert x == k;
  }

  lemma FileOfObjects(objects: map<string, seq<Row>>, keys: seq<string>, files: Files, k: string, id: EventId)
    requires Flatten(k) in files && FileInv(objects, keys, files, k) && id in Ids(files[Flatten(k)])
    ensures InObjects(objects, keys, id)
  {
    var x :| x in keys && Flatten(x) == Flatten(k) && CopyOf(files[Flatten(k)], objects, x);
    assert id in Ids(objects[x]);
  }

  /** The rows Spark reads are of the job's objects. */
  lemma FrameOfObjects(objects: map<string, seq<Row>>, keys: seq<string>, files: Files, id: EventId)
    requires FilesInv(objects, keys, files) && AllFetched(keys, files)
    requires id in Ids(Frame(keys, files))
    ensures InObjects(objects, keys, id)
  {
    FrameIds(keys, files, id);
    var k :| k in keys && id in Ids(files[Flatten(k)]);
    FileOfObjects(objects, keys, files, k, id);
  }

  /** They are of all of them where names are apart. */
  lemma ObjectsInFrame(objects: map<string, seq<Row>>, keys: seq<string>, files: Files, id: EventId)
    requires FilesInv(objects, keys, files) && AllFetched(keys, files) && DistinctNames(keys)
    requires InObjects(objects, keys, id)
    ensures id in Ids(Frame(keys, files))
  {
    var k :| k in keys && k in objects && id in Ids(objects[k]);
    OwnFile(objects, keys, files, k);
    FrameIds(keys, files, id);
    assert id in Ids(files[Flatten(k)]);
  }

  lemma FrameExactly(objects: map<string, seq<Row>>, keys: seq<string>, files: Files)
    requires FilesInv(objects, keys, files) && AllFetched(keys, files)
    ensures forall id | id in Ids(Frame(keys, files)) :: InObjects(objects, keys, id)
    ensures DistinctNames(keys) ==> forall id | InObjects(objects, keys, id) :: id in Ids(Frame(keys, files))
  {
    forall id | id in Ids(Frame(keys, files))
      ensures InObjects(objects, keys, id)
    {
      FrameOfObjects(objects, keys, files, id);
    }
    if DistinctNames(keys) {
      forall id | InObjects(objects, keys, id)
        ensures id in Ids(Frame(keys, files))
      {
        ObjectsInFrame(objects, keys, files, id);
      }
    }
  }

  lemma BatchesApart(keys: seq<string>)
    requires AllBatches(keys)
    ensures DistinctNames(keys)
  {
    forall k | k in keys
      ensures Clean(k)
    {
      assert B.IsBatchKey(k);
      var t, f :| Clock.Valid(t) && k == B.BatchKey(t, f);
      B.BatchKeyClean(t, f);
    }
    CleanKeysApart(keys);
  }

  /** Of batches, Spark reads exactly what they hold. */
  lemma BatchFrame(objects: map<string, seq<Row>>, keys: seq<string>, files: Files)
    requires FilesInv(objects, keys, files) && AllFetched(keys, files) && AllBatches(keys)
    ensures Frame(keys, files) == Contents(objects, keys)
  {
    BatchesApart(keys);
    forall k | k in keys
      ensures k in objects && files[Flatten(k)] == objects[k]
    {
      OwnFile(objects, keys, files, k);
      assert B.IsBatchKey(k);
    }
    FrameOfFiles(objects, keys, files);
  }

  /** What a commit adds to the two tables. */
  ghost predicate Adds(keys: seq<string>, frame: seq<Row>, observations: Table, manifest: Manifest,
                       after: Table, m: Manifest) {
    after.Keys == observations.Keys + Ids(frame) && m.Keys == manifest.Keys + Elements(keys)
  }

  lemma CommitAdds(observations: Table, manifest: Manifest, keys: seq<string>, files: Files, latest: seq<Row>,
                   etags: map<string, string>, runId: string, now: int)
    requires AllFetched(keys, files) && Dedup.LatestPerId(Frame(keys, files), latest)
    ensures Adds(keys, Frame(keys, files), observations, manifest, Upsert(observations, latest, now),
                 RecordObjects(manifest, Records(keys, files, etags, runId), now))
  {
    UpsertEffect(observations, latest, now);
    RecordEffect(manifest, Records(keys, files, etags, runId), now);
    RecordsReconcile(keys, files, etags, runId);
  }

  lemma LoadInventsNothing(objects: map<string, seq<Row>>, observations: Table, manifest: Manifest,
                           keys: seq<string>, frame: seq<Row>, after: Table, m: Manifest)
    requires NothingInvented(objects, observations, manifest) && Adds(keys, frame, observations, manifest, after, m)
    requires forall k | k in keys :: k in objects
    requires forall id | id in Ids(frame) :: InObjects(objects, keys, id)
    ensures NothingInvented(objects, after, m)
  {
    forall id | id in after
      ensures InListed(objects, m, id)
    {
      if id in observations {
        var k :| k in manifest && k in objects && id in Ids(objects[k]);
        assert k in m;
      } else {
        var k :| k in keys && k in objects && id in Ids(objects[k]);
        assert k in m;
      }
    }
  }

  lemma LoadLosesNothing(objects: map<string, seq<Row>>, observations: Table, manifest: Manifest,
                         keys: seq<string>, frame: seq<Row>, after: Table, m: Manifest)
    requires NothingLost(objects, observations, manifest) && Adds(keys, frame, observations, manifest, after, m)
    requires forall id | InObjects(objects, keys, id) :: id in Ids(frame)
    ensures NothingLost(objects, after, m)
  {
    forall id | InListed(objects, m, id)
      ensures id in after
    {
      var k :| k in m && k in objects && id in Ids(objects[k]);
      if k in manifest {
        assert InListed(objects, manifest, id);
      } else {
        assert InObjects(objects, keys, id);
      }
    }
  }

  lemma CommitSurvives(objects: map<string, seq<Row>>, manifest: Manifest, m: Manifest, c: Commit)
    requires CommitInv(objects, manifest, c) && manifest.Keys <= m.Keys
    ensures CommitInv(objects, m, c)
  {
  }

  lemma LoadMakesCommit(objects: map<string, seq<Row>>, manifest: Manifest, keys: seq<string>, files: Files, c: Commit)
    requires FilesInv(objects, keys, files) && AllFetched(keys, files) && NoDup(keys)
    requires forall k | k in keys :: k in manifest
    requires c.objects == keys && c.frame == Frame(keys, files) && Dedup.LatestPerId(c.frame, c.latest)
    ensures CommitInv(objects, manifest, c)
  {
    FrameExactly(objects, keys, files);
    if AllBatches(keys) {
      BatchFrame(objects, keys, files);
    }
  }

  lemma EveryKeyCommitted(manifest: Manifest, m: Manifest, commits: seq<Commit>, c: Commit)
    requires m.Keys == manifest.Keys + Elements(c.objects)
    requires forall k | k in manifest :: exists i :: 0 <= i < |commits| && k in commits[i].objects
    ensures forall k | k in m :: exists i :: 0 <= i < |commits + [c]| && k in (commits + [c])[i].objects
  {
    var all := commits + [c];
    forall k | k in m
      ensures exists i :: 0 <= i < |all| && k in all[i].objects
    {
      if k in manifest {
        var i :| 0 <= i < |commits| && k in commits[i].objects;
        assert k in all[i].objects;
      } else {
        assert k in all[|commits|].objects;
      }
    }
  }

  lemma DisjointGrow(objects: map<string, seq<Row>>, manifest: Manifest, commits: seq<Commit>, c: Commit, i: nat,
                     j: nat)
    requires CommitsOf(objects, manifest, commits) && i < j <= |commits|
    requires !c.force ==> forall k | k in c.objects :: k !in manifest
    requires !(commits + [c])[j].force
    ensures Disjoint((commits + [c])[i].objects, (commits + [c])[j].objects)
  {
    assert (commits + [c])[i] == commits[i];
    if j < |commits| {
      assert (commits + [c])[j] == commits[j];
    } else {
      assert CommitInv(objects, manifest, commits[i]);
    }
  }

  lemma CommitsGrow(objects: map<string, seq<Row>>, manifest: Manifest, m: Manifest, commits: seq<Commit>, c: Commit)
    requires CommitsOf(objects, manifest, commits)
    requires m.Keys == manifest.Keys + Elements(c.objects) && CommitInv(objects, m, c)
    requires !c.force ==> forall k | k in c.objects :: k !in manifest
    ensures CommitsOf(objects, m, commits + [c])
  {
    var all := commits + [c];
    EveryKeyCommitted(manifest, m, commits, c);
    forall i | 0 <= i < |all|
      ensures CommitInv(objects, m, all[i])
    {
      if i < |commits| {
        CommitSurvives(objects, manifest, m, commits[i]);
      }
    }
    forall i, j | 0 <= i < j < |all| && !all[j].force
      ensures Disjoint(all[i].objects, all[j].objects)
    {
      DisjointGrow(objects, manifest, commits, c, i, j);
    }
  }

  lemma NewCommit(objects: map<string, seq<Row>>, manifest: Manifest, m: Manifest, j: nat, job: Job, latest: seq<Row>)
    requires JobInv(objects, manifest, job) && job.stage.Loading?
    requires Dedup.LatestPerId(Frame(job.stage.objects, job.stage.files), latest)
    requires m.Keys == manifest.Keys + Elements(job.stage.objects)
    ensures CommitInv(objects, m, CommitOf(j, job, latest))
    ensures !job.force ==> forall k | k in job.stage.objects :: k !in manifest
  {
    LoadMakesCommit(objects, m, job.stage.objects, job.stage.files, CommitOf(j, job, latest));
  }

  lemma LoadKeepsCommits(s: State, step: Step)
    requires JobsInv(s) && CommitsInv(s) && Enabled(s, step) && step.CommitLoad?
    requires Next(s, step).manifest.Keys == s.manifest.Keys + Elements(s.jobs[step.job].stage.objects)
    ensures CommitsInv(Next(s, step))
  {
    var t := Next(s, step);
    var job := s.jobs[step.job];
    NewCommit(s.writer.objects, s.manifest, t.manifest, step.job, job, step.latest);
    CommitsGrow(s.writer.objects, s.manifest, t.manifest, s.commits, CommitOf(step.job, job, step.latest));
  }

  lemma TablesGrow(objects: map<string, seq<Row>>, observations: Table, manifest: Manifest, commits: seq<Commit>,
                   c: Commit, files: Files, after: Table, m: Manifest)
    requires FilesInv(objects, c.objects, files) && AllFetched(c.objects, files) && c.frame == Frame(c.objects, files)
    requires Adds(c.objects, c.frame, observations, manifest, after, m)
    requires NothingInvented(objects, observations, manifest)
    requires NamesApart(commits) ==> NothingLost(objects, observations, manifest)
    ensures NothingInvented(objects, after, m)
    ensures NamesApart(commits + [c]) ==> NothingLost(objects, after, m)
  {
    FrameExactly(objects, c.objects, files);
    LoadInventsNothing(objects, observations, manifest, c.objects, c.frame, after, m);
    if NamesApart(commits + [c]) {
      ApartBefore(commits, c);
      LoadLosesNothing(objects, observations, manifest, c.objects, c.frame, after, m);
    }
  }

  lemma LoadKeepsTables(s: State, step: Step)
    requires JobsInv(s) && TablesInv(s) && Enabled(s, step) && step.CommitLoad?
    ensures TablesInv(Next(s, step))
  {
    var t := Next(s, step);
    var job := s.jobs[step.job];
    var stage, c := job.stage, CommitOf(step.job, job, step.latest);
    assert JobInv(s.writer.objects, s.manifest, job);
    CommitAdds(s.observations, s.manifest, stage.objects, stage.files, step.latest, step.etags, step.runId,
               stage.start);
    TablesGrow(s.writer.objects, s.observations, s.manifest, s.commits, c, stage.files, t.observations, t.manifest);
  }

  lemma ApartBefore(commits: seq<Commit>, c: Commit)
    requires NamesApart(commits + [c])
    ensures NamesApart(commits) && DistinctNames(c.objects)
  {
    var all := commits + [c];
    assert all[|commits|] == c;
    assert forall i | 0 <= i < |commits| :: all[i] == commits[i];
  }

  lemma LoadKeepsInv(s: State, step: Step)
    requires Inv(s) && Enabled(s, step) && step.CommitLoad?
    ensures Inv(Next(s, step))
  {
    LoadKeepsTables(s, step);
    LoadedKeys(s, step);
    LoadKeepsCommits(s, step);
    LoadedAlone(s, step);
    JobsDone(Next(s, step));
  }

  lemma JobsDone(s: State)
    requires forall j | j in s.jobs :: s.jobs[j].stage == Loaded
    ensures JobsInv(s)
  {
  }

  lemma LoadedAlone(s: State, step: Step)
    requires LockInv(s) && Enabled(s, step) && step.CommitLoad?
    ensures LockInv(Next(s, step))
    ensures forall j | j in Next(s, step).jobs :: Next(s, step).jobs[j].stage == Loaded
  {
    assert Next(s, step).jobs.Keys == s.jobs.Keys;
  }

  lemma LoadedKeys(s: State, step: Step)
    requires Enabled(s, step) && step.CommitLoad?
    ensures Next(s, step).manifest.Keys == s.manifest.Keys + Elements(s.jobs[step.job].stage.objects)
  {
    var stage := s.jobs[step.job].stage;
    CommitAdds(s.observations, s.manifest, stage.objects, stage.files, step.latest, step.etags, step.runId,
               stage.start);
  }

  /** A job moves to its next stage. */
  lemma StagedKeepsInv(s: State, j: nat, stage: Stage)
    requires Inv(s) && j in s.jobs && JobInv(s.writer.objects, s.manifest, s.jobs[j].(stage := stage))
    ensures Inv(Staged(s, j, stage))
  {
  }

  lemma RequestKeepsInv(s: State, j: nat, prefix: string, force: bool)
    requires Inv(s) && Enabled(s, Request(j, prefix, force))
    ensures Inv(Next(s, Request(j, prefix, force)))
  {
  }

  lemma ListKeepsInv(s: State, j: nat, all: seq<string>)
    requires Inv(s) && Enabled(s, List(j, all))
    ensures Inv(Next(s, List(j, all)))
  {
    StagedKeepsInv(s, j, Listed(all));
  }

  lemma FilterKeepsInv(s: State, j: nat)
    requires Inv(s) && Enabled(s, Filter(j))
    ensures Inv(Next(s, Filter(j)))
  {
    FilterKeepsJob(s.writer.objects, s.manifest, s.jobs[j]);
    StagedKeepsInv(s, j, Next(s, Filter(j)).jobs[j].stage);
  }

  lemma FetchKeepsInv(s: State, j: nat, key: string)
    requires Inv(s) && Enabled(s, Fetch(j, key))
    ensures Inv(Next(s, Fetch(j, key)))
  {
    FetchKeepsJob(s.writer.objects, s.manifest, s.jobs[j], key);
    StagedKeepsInv(s, j, Next(s, Fetch(j, key)).jobs[j].stage);
  }

  lemma BeginKeepsInv(s: State, j: nat, now: int)
    requires Inv(s) && Enabled(s, BeginLoad(j, now))
    ensures Inv(Next(s, BeginLoad(j, now)))
  {
    StagedKeepsInv(s, j, Next(s, BeginLoad(j, now)).jobs[j].stage);
  }

  /** The job that leaves was the only one. */
  lemma LeaveKeepsInv(s: State, step: Step)
    requires Inv(s) && Enabled(s, step) && (step.Leave? || step.RunnerCrash?)
    ensures Inv(Next(s, step))
  {
    assert Next(s, step).jobs == map[];
  }

  lemma StepKeepsInv(s: State, step: Step)
    requires Inv(s) && Enabled(s, step)
    ensures Inv(Next(s, step))
  {
    match step
    case WriterStep(w) => WriterStepKeepsInv(s, w);
    case Request(j, prefix, force) => RequestKeepsInv(s, j, prefix, force);
    case List(j, all) => ListKeepsInv(s, j, all);
    case Filter(j) => FilterKeepsInv(s, j);
    case Fetch(j, key) => FetchKeepsInv(s, j, key);
    case BeginLoad(j, now) => BeginKeepsInv(s, j, now);
    case CommitLoad(_, _, _, _) => LoadKeepsInv(s, step);
    case Leave(_) => LeaveKeepsInv(s, step);
    case RunnerCrash => LeaveKeepsInv(s, step);
  }

  lemma {:induction false} BehaviourKeepsInv(s: State, steps: seq<Step>, end: State)
    requires Inv(s) && Behaviour(s, steps, end)
    ensures Inv(end)
    decreases |steps|
  {
    if steps != [] {
      StepKeepsInv(s, steps[0]);
      BehaviourKeepsInv(Next(s, steps[0]), steps[1..], end);
    }
  }

  ghost predicate Reachable(s: State) {
    exists w, steps :: Init(w) && Behaviour(w, steps, s)
  }

  lemma InitInv(s: State)
    requires Init(s)
    ensures Inv(s)
  {
    B.InitInv(s.writer);
  }

  lemma ReachableInv(s: State)
    requires Reachable(s)
    ensures Inv(s)
  {
    var w, steps :| Init(w) && Behaviour(w, steps, s);
    InitInv(w);
    BehaviourKeepsInv(w, steps, s);
  }

  // ---- Composing runs -------------------------------------------------------------------

  lemma OneStep(s: State, step: Step)
    requires Enabled(s, step)
    ensures Behaviour(s, [step], Next(s, step))
  {
    assert [step][1..] == [];
    assert Behaviour(Next(s, step), [], Next(s, step));
  }

  lemma {:induction false} Chain(s: State, first: seq<Step>, t: State, second: seq<Step>, u: State)
    requires Behaviour(s, first, t) && Behaviour(t, second, u)
    ensures Behaviour(s, first + second, u)
    decreases |first|
  {
    if first == [] {
      assert first + second == second;
    } else {
      Chain(Next(s, first[0]), first[1..], t, second, u);
      assert (first + second)[1..] == first[1..] + second;
    }
  }

  /** Some run leads from one state to the other. */
  ghost predicate Reaches(s: State, t: State) {
    exists steps :: Behaviour(s, steps, t)
  }

  lemma ReachesItself(s: State)
    ensures Reaches(s, s)
  {
    assert Behaviour(s, [], s);
  }

  lemma ReachesNext(s: State, step: Step)
    requires Enabled(s, step)
    ensures Reaches(s, Next(s, step))
  {
    OneStep(s, step);
  }

  lemma ReachesTransitive(s: State, t: State, u: State)
    requires Reaches(s, t) && Reaches(t, u)
    ensures Reaches(s, u)
  {
    var first :| Behaviour(s, first, t);
    var second :| Behaviour(t, second, u);
    Chain(s, first, t, second, u);
  }

  lemma ReachableNext(s: State, step: Step)
    requires Reachable(s) && Enabled(s, step)
    ensures Reachable(Next(s, step))
  {
    var w, steps :| Init(w) && Behaviour(w, steps, s);
    OneStep(s, step);
    Chain(w, steps, s, [step], Next(s, step));
  }

  // ---- Results over whole runs ----------------------------------------------------------

  /** Whatever the interleaving, at most one transform is between acquiring and releasing the lock. */
  lemma MutualExclusion(s: State, i: nat, j: nat)
    requires Reachable(s) && i in s.jobs && j in s.jobs
    ensures i == j && s.locked
  {
    ReachableInv(s);
  }

  /**
   The runner may die at any moment. What was committed stays, whatever the job had done, and the next
   request is let in.
   */
  lemma DeathIsAlwaysPossible(s: State, j: nat, prefix: string, force: bool)
    ensures Enabled(s, RunnerCrash)
    ensures var t := Next(s, RunnerCrash);
            && t.writer == s.writer && t.observations == s.observations && t.manifest == s.manifest
            && t.commits == s.commits
            && Enabled(t, Request(j, prefix, force)) && j in Next(t, Request(j, prefix, force)).jobs
  {
  }

  /** A request is refused exactly while another is inside, and a refused request changes nothing. */
  lemma RefusedRequestIsHarmless(s: State, j: nat, prefix: string, force: bool)
    requires Reachable(s) && j !in s.jobs
    ensures j !in Next(s, Request(j, prefix, force)).jobs <==> s.jobs != map[]
    ensures s.jobs != map[] ==> Next(s, Request(j, prefix, force)) == s
  {
    ReachableInv(s);
  }

  /**
   Exactly-once effect: at every moment of every run, through crashes, retries, concurrent requests
   and forced replays, the warehouse holds no identity but those of the objects listed in the
   manifest; and it holds all of them as long as no load took two objects with one local name.
   Only batches and other clean keys never do.
   */
  lemma ExactlyOnceEffect(s: State, id: EventId)
    requires Reachable(s)
    ensures id in s.observations ==> InListed(s.writer.objects, s.manifest, id)
    ensures NamesApart(s.commits) ==> (id in s.observations <==> InListed(s.writer.objects, s.manifest, id))
  {
    ReachableInv(s);
  }

  /** An object is loaded once: a later load takes it again only if it was forced. */
  lemma ObjectsCommittedOnce(s: State, i: nat, j: nat, key: string)
    requires Reachable(s) && i < j < |s.commits|
    requires key in s.commits[i].objects && key in s.commits[j].objects
    ensures s.commits[j].force
  {
    ReachableInv(s);
    assert s.commits[j].force || Disjoint(s.commits[i].objects, s.commits[j].objects);
  }

  /** The manifest is what the committed loads have read. */
  lemma ManifestIsHistory(s: State, key: string)
    requires Reachable(s)
    ensures key in s.manifest <==> exists i :: 0 <= i < |s.commits| && key in s.commits[i].objects
  {
    ReachableInv(s);
    if i :| 0 <= i < |s.commits| && key in s.commits[i].objects {
      assert CommitInv(s.writer.objects, s.manifest, s.commits[i]);
    }
  }

  /** Every batch in the bucket has been taken by some load. */
  ghost predicate AllBatchesListed(s: State) {
    forall k | k in s.writer.objects && B.IsBatchKey(k) :: k in s.manifest
  }

  ghost predicate OnlyBatchesListed(s: State) {
    forall k | k in s.manifest :: B.IsBatchKey(k)
  }

  lemma BatchCommitsApart(s: State)
    requires Inv(s) && OnlyBatchesListed(s)
    ensures NamesApart(s.commits)
  {
    forall i | 0 <= i < |s.commits|
      ensures DistinctNames(s.commits[i].objects)
    {
      assert CommitInv(s.writer.objects, s.manifest, s.commits[i]);
      BatchesApart(s.commits[i].objects);
    }
  }

  /**
   End to end: once every message has been flushed and every batch loaded, each contract-valid
   event of the log is in the warehouse, as long as no load took two objects with one local name.
   If nothing but batches was loaded, that is so, and the warehouse holds nothing else.
   */
  lemma LogReachesWarehouse(s: State, id: EventId)
    requires Reachable(s) && Drained(s.writer) && AllBatchesListed(s)
    ensures NamesApart(s.commits) && id in ValidIds(s.writer.produced) ==> id in s.observations
    ensures OnlyBatchesListed(s) ==> (id in s.observations <==> id in ValidIds(s.writer.produced))
  {
    ExactlyOnceEffect(s, id);
    WriterReachable(s);
    if id in ValidIds(s.writer.produced) {
      ValidIsListed(s, id);
    }
    if OnlyBatchesListed(s) {
      ReachableInv(s);
      BatchCommitsApart(s);
      if id in s.observations {
        ListedIsValid(s, id);
      }
    }
  }

  lemma ValidIsListed(s: State, id: EventId)
    requires B.Reachable(s.writer) && Drained(s.writer) && AllBatchesListed(s) && id in ValidIds(s.writer.produced)
    ensures InListed(s.writer.objects, s.manifest, id)
  {
    DrainedBatchIds(s.writer, id);
    var k :| k in s.writer.objects && B.IsBatchKey(k) && id in Ids(s.writer.objects[k]);
    assert k in s.manifest;
  }

  lemma ListedIsValid(s: State, id: EventId)
    requires B.Reachable(s.writer) && OnlyBatchesListed(s) && InListed(s.writer.objects, s.manifest, id)
    ensures id in ValidIds(s.writer.produced)
  {
    var k :| k in s.manifest && k in s.writer.objects && id in Ids(s.writer.objects[k]);
    assert B.IsBatchKey(k) && InBatches(s.writer, id);
    BatchIdsAreValid(s.writer, id);
  }

  /** Seen from the writer alone, a run of the pipeline is a run of the writer. */
  lemma {:induction false} WriterRuns(s: State, steps: seq<Step>, end: State)
    requires B.Reachable(s.writer) && Behaviour(s, steps, end)
    ensures B.Reachable(end.writer)
    decreases |steps|
  {
    if steps != [] {
      var t := Next(s, steps[0]);
      if steps[0].WriterStep? {
        B.ReachesNext(s.writer, steps[0].step);
        B.ReachableReaches(s.writer, t.writer);
      }
      WriterRuns(t, steps[1..], end);
    }
  }

  lemma WriterReachable(s: State)
    requires Reachable(s)
    ensures B.Reachable(s.writer)
  {
    var w, steps :| Init(w) && Behaviour(w, steps, s);
    assert B.Behaviour(w.writer, [], w.writer);
    WriterRuns(w, steps, s);
  }

  // ---- The default prefix ---------------------------------------------------------------

  const DEFAULT_PREFIX := "bronze/seoul_citydata/"

  lemma PrefixesApart(key: string)
    requires B.IsBatchKey(key)
    ensures !(DEFAULT_PREFIX <= key)
  {
    B.OtherPrefix(key);
    assert key[7] == B.BATCH_PREFIX[7] == 't';
    assert DEFAULT_PREFIX[7] == 's';
  }

  /** Every request of the run asks for the default prefix. */
  ghost predicate OnlyDefaultRequests(steps: seq<Step>) {
    forall i | 0 <= i < |steps| && steps[i].Request? :: steps[i].prefix == DEFAULT_PREFIX
  }

  ghost predicate DefaultInv(s: State) {
    && (forall j | j in s.jobs :: s.jobs[j].prefix == DEFAULT_PREFIX)
    && (forall k | k in s.manifest :: DEFAULT_PREFIX <= k)
  }

  lemma DefaultLoad(s: State, step: Step)
    requires JobsInv(s) && DefaultInv(s) && Enabled(s, step) && step.CommitLoad?
    ensures forall k | k in Next(s, step).manifest :: DEFAULT_PREFIX <= k
  {
    assert JobInv(s.writer.objects, s.manifest, s.jobs[step.job]);
    LoadedKeys(s, step);
  }

  lemma PrefixesStay(s: State, step: Step)
    requires Enabled(s, step)
    ensures forall j | j in Next(s, step).jobs ::
              || (j in s.jobs && Next(s, step).jobs[j].prefix == s.jobs[j].prefix)
              || (step.Request? && Next(s, step).jobs[j].prefix == step.prefix)
    ensures !step.CommitLoad? ==> Next(s, step).manifest == s.manifest
  {
  }

  lemma DefaultStep(s: State, step: Step)
    requires JobsInv(s) && DefaultInv(s) && Enabled(s, step)
    requires step.Request? ==> step.prefix == DEFAULT_PREFIX
    ensures DefaultInv(Next(s, step))
  {
    PrefixesStay(s, step);
    if step.CommitLoad? {
      DefaultLoad(s, step);
    }
  }

  lemma {:induction false} DefaultRun(s: State, steps: seq<Step>, end: State)
    requires Inv(s) && DefaultInv(s) && Behaviour(s, steps, end) && OnlyDefaultRequests(steps)
    ensures DefaultInv(end)
    decreases |steps|
  {
    if steps != [] {
      StepKeepsInv(s, steps[0]);
      DefaultStep(s, steps[0]);
      DefaultRun(Next(s, steps[0]), steps[1..], end);
    }
  }

  /**
   The default prefix of a transform request is not the writer's: while all requests rely on
   it, no batch the writer uploads is ever loaded.
   */
  lemma DefaultPrefixSkipsBatches(w: State, steps: seq<Step>, s: State, key: string)
    requires Init(w) && Behaviour(w, steps, s) && OnlyDefaultRequests(steps)
    requires B.IsBatchKey(key)
    ensures key !in s.manifest
  {
    InitInv(w);
    DefaultRun(w, steps, s);
    PrefixesApart(key);
  }
}
