/**
 The runner's method and the interleaved protocol describe the same job: what one undisturbed
 call of the method does to the warehouse is what a run of protocol steps does, so the results
 over all interleavings cover it.
 */
module JobRefinement {
  import opened Observations
  import KeyFlattening
  import Dedup
  import Warehouse
  import opened Transform
  import opened SparkRunnerProcess
  import B = BronzeProtocol
  import P = Pipeline
  import L = Publishing
  import RunLedger

  /** A job that has taken these objects, alone in the runner, and holds these files. */
  function Inside(s: P.State, j: nat, job: P.Job): P.State {
    s.(locked := true, jobs := map[j := job])
  }

  function Holding(prefix: string, force: bool, keys: seq<string>, files: Files): P.Job {
    P.Job(prefix, force, P.Working(keys, files))
  }

  lemma DownloadedSnoc(objects: map<string, seq<Row>>, order: seq<string>, n: nat)
    requires n < |order| && forall k | k in order :: k in objects
    ensures Downloaded(objects, order[..n + 1])
            == Downloaded(objects, order[..n])[KeyFlattening.Flatten(order[n]) := objects[order[n]]]
  {
    assert order[..n + 1][..n] == order[..n];
  }

  lemma FetchOne(s: P.State, j: nat, prefix: string, force: bool, keys: seq<string>, files: Files, k: string)
    requires k in keys && k in s.writer.objects
    ensures P.Reaches(Inside(s, j, Holding(prefix, force, keys, files)),
                      Inside(s, j, Holding(prefix, force, keys,
                                           files[KeyFlattening.Flatten(k) := s.writer.objects[k]])))
  {
    var here := Inside(s, j, Holding(prefix, force, keys, files));
    FetchedNext(here, j, k);
    P.ReachesNext(here, P.Fetch(j, k));
    Replaced(j, here.jobs[j], P.Next(here, P.Fetch(j, k)).jobs[j]);
  }

  lemma Replaced(j: nat, before: P.Job, after: P.Job)
    ensures map[j := before][j := after] == map[j := after]
  {
  }

  lemma FetchedNext(s: P.State, j: nat, k: string)
    requires P.Enabled(s, P.Fetch(j, k))
    ensures var stage := s.jobs[j].stage;
            var files := stage.files[KeyFlattening.Flatten(k) := s.writer.objects[k]];
            P.Next(s, P.Fetch(j, k)) == s.(jobs := s.jobs[j := s.jobs[j].(stage := P.Working(stage.objects, files))])
  {
  }

  /** All downloads, in the order they end. */
  lemma {:induction false} FetchAll(s: P.State, j: nat, prefix: string, force: bool, keys: seq<string>,
                                    order: seq<string>)
    requires forall k | k in order :: k in keys && k in s.writer.objects
    ensures P.Reaches(Inside(s, j, Holding(prefix, force, keys, map[])),
                      Inside(s, j, Holding(prefix, force, keys, Downloaded(s.writer.objects, order))))
    decreases |order|
  {
    if order == [] {
      P.ReachesItself(Inside(s, j, Holding(prefix, force, keys, map[])));
    } else {
      var n := |order| - 1;
      FetchAll(s, j, prefix, force, keys, order[..n]);
      var files := Downloaded(s.writer.objects, order[..n]);
      DownloadedSnoc(s.writer.objects, order, n);
      assert order[..n + 1] == order && order[n] in order;
      FetchOne(s, j, prefix, force, keys, files, order[n]);
      P.ReachesTransitive(Inside(s, j, Holding(prefix, force, keys, map[])),
                          Inside(s, j, Holding(prefix, force, keys, files)),
                          Inside(s, j, Holding(prefix, force, keys, Downloaded(s.writer.objects, order))));
    }
  }

  lemma EnterAndList(s: P.State, j: nat, prefix: string, force: bool, all: seq<string>)
    requires !s.locked && s.jobs == map[] && P.IsListing(s.writer.objects, prefix, all)
    ensures P.Reaches(s, Inside(s, j, P.Job(prefix, force, P.Listed(all))))
  {
    Enters(s, j, prefix, force);
    var entered := Inside(s, j, P.Job(prefix, force, P.Entered));
    P.ReachesNext(entered, P.List(j, all));
    assert P.Next(entered, P.List(j, all)).jobs == map[j := P.Job(prefix, force, P.Listed(all))];
    P.ReachesTransitive(s, entered, Inside(s, j, P.Job(prefix, force, P.Listed(all))));
  }

  lemma Enters(s: P.State, j: nat, prefix: string, force: bool)
    requires !s.locked && s.jobs == map[]
    ensures P.Reaches(s, Inside(s, j, P.Job(prefix, force, P.Entered)))
  {
    P.ReachesNext(s, P.Request(j, prefix, force));
    assert P.Next(s, P.Request(j, prefix, force)).jobs == map[j := P.Job(prefix, force, P.Entered)];
  }

  lemma EnterAndSelect(s: P.State, j: nat, prefix: string, force: bool, all: seq<string>)
    requires !s.locked && s.jobs == map[] && P.IsListing(s.writer.objects, prefix, all)
    ensures var keys := if force then all else Unprocessed(all, s.manifest.Keys);
            P.Reaches(s, Inside(s, j, Holding(prefix, force, keys, map[])))
  {
    var keys := if force then all else Unprocessed(all, s.manifest.Keys);
    var listed := Inside(s, j, P.Job(prefix, force, P.Listed(all)));
    EnterAndList(s, j, prefix, force, all);
    P.ReachesNext(listed, P.Filter(j));
    assert P.Next(listed, P.Filter(j)).jobs == map[j := Holding(prefix, force, keys, map[])];
    P.ReachesTransitive(s, listed, Inside(s, j, Holding(prefix, force, keys, map[])));
  }

  // ---- Output files ---------------------------------------------------------------------

  function WithObjects(s: P.State, objects: map<string, seq<Row>>): P.State {
    s.(writer := s.writer.(objects := objects))
  }

  /** Names no load has taken or is taking. */
  ghost predicate Unused(s: P.State, names: nat -> string, count: nat) {
    forall i | 0 <= i < count :: !B.IsBatchKey(names(i)) && !P.Kept(s, names(i))
  }

  lemma PutOne(s: P.State, key: string, part: seq<Row>)
    requires B.Sane(s.writer) && !B.IsBatchKey(key) && !P.Kept(s, key)
    ensures P.Reaches(s, WithObjects(s, s.writer.objects[key := part]))
  {
    P.ReachesNext(s, P.WriterStep(B.Put(key, part)));
  }

  lemma {:induction false} PutAll(s: P.State, names: nat -> string, parts: seq<seq<Row>>)
    requires B.Sane(s.writer) && Unused(s, names, |parts|)
    ensures P.Reaches(s, WithObjects(s, AfterParts(s.writer.objects, names, parts)))
    decreases |parts|
  {
    if parts == [] {
      P.ReachesItself(s);
    } else {
      var n := |parts| - 1;
      PutAll(s, names, parts[..n]);
      var here := WithObjects(s, AfterParts(s.writer.objects, names, parts[..n]));
      assert !P.Kept(here, names(n)) by {
        assert !P.Kept(s, names(n));
      }
      PutOne(here, names(n), parts[n]);
      P.ReachesTransitive(s, here, WithObjects(here, here.writer.objects[names(n) := parts[n]]));
    }
  }

  /** The names of a fresh job's output files are unused by it and by every load before. */
  lemma SilverUnused(s: P.State, runId: string, w: World, count: nat, keys: seq<string>, job: P.Job, j: nat)
    requires P.Inv(s) && (forall k | k in keys :: k in s.writer.objects)
    requires P.Busy(job.stage) ==> job.stage.objects == keys
    requires forall i | 0 <= i < count :: SilverKey(runId, w, i) !in s.writer.objects
    ensures Unused(Inside(s, j, job), SilverNames(runId, w), count)
  {
    var names := SilverNames(runId, w);
    forall i | 0 <= i < count
      ensures !B.IsBatchKey(names(i)) && !P.Kept(Inside(s, j, job), names(i))
    {
      var key := SilverKey(runId, w, i);
      assert SILVER_PREFIX <= key && key[0] == SILVER_PREFIX[0];
      B.OtherPrefix(key);
      assert B.BATCH_PREFIX[0] == 'b' && SILVER_PREFIX[0] == 's';
      assert key !in s.manifest;
    }
  }

  // ---- The whole job --------------------------------------------------------------------

  lemma LeavesOnly(s: P.State, j: nat)
    requires s.jobs.Keys == {j}
    ensures P.Reaches(s, s.(locked := false, jobs := map[]))
  {
    P.ReachesNext(s, P.Leave(j));
    assert P.Next(s, P.Leave(j)).jobs == map[];
  }

  lemma OpensLoad(ready: P.State, j: nat, keys: seq<string>, files: Files, now: int) returns (t: P.State)
    requires ready.jobs.Keys == {j} && ready.jobs[j].stage == P.Working(keys, files)
    requires keys != [] && AllFetched(keys, files)
    ensures P.Reaches(ready, t)
    ensures t == ready.(jobs := t.jobs) && t.jobs.Keys == {j} && t.jobs[j].stage == P.Loading(keys, files, now)
  {
    t := P.Next(ready, P.BeginLoad(j, now));
    P.ReachesNext(ready, P.BeginLoad(j, now));
  }

  lemma CommitsLoad(open: P.State, j: nat, keys: seq<string>, files: Files, etags: map<string, string>,
                    runId: string, now: int) returns (t: P.State)
    requires open.jobs.Keys == {j} && open.jobs[j].stage == P.Loading(keys, files, now)
    requires AllFetched(keys, files) && forall r | r in Dedup.Deduplicate(Frame(keys, files)) :: Checks(r)
    ensures P.Reaches(open, t)
    ensures t.observations == Warehouse.Upsert(open.observations, Dedup.Deduplicate(Frame(keys, files)), now)
    ensures t.manifest == Warehouse.RecordObjects(open.manifest, Records(keys, files, etags, runId), now)
    ensures t.writer == open.writer && t.jobs.Keys == {j}
  {
    Dedup.DeduplicateKeepsLatest(Frame(keys, files));
    var load := P.CommitLoad(j, Dedup.Deduplicate(Frame(keys, files)), etags, runId);
    t := P.Next(open, load);
    P.ReachesNext(open, load);
  }

  /** The load transaction, from its first statement to its commit. */
  lemma Loads(ready: P.State, j: nat, keys: seq<string>, files: Files, etags: map<string, string>, runId: string,
              now: int)
    returns (t: P.State)
    requires ready.jobs.Keys == {j} && ready.jobs[j].stage == P.Working(keys, files)
    requires keys != [] && AllFetched(keys, files)
    requires forall r | r in Dedup.Deduplicate(Frame(keys, files)) :: Checks(r)
    ensures P.Reaches(ready, t)
    ensures t.observations == Warehouse.Upsert(ready.observations, Dedup.Deduplicate(Frame(keys, files)), now)
    ensures t.manifest == Warehouse.RecordObjects(ready.manifest, Records(keys, files, etags, runId), now)
    ensures t.writer == ready.writer && t.jobs.Keys == {j}
  {
    var open := OpensLoad(ready, j, keys, files, now);
    t := CommitsLoad(open, j, keys, files, etags, runId, now);
    P.ReachesTransitive(ready, open, t);
  }

  /** The tables and the bucket after a job. */
  datatype Effect = Effect(observations: Warehouse.Table, manifest: Warehouse.Manifest, objects: map<string, seq<Row>>)

  ghost predicate LeavesEffect(s: P.State, t: P.State, e: Effect) {
    t == P.State(s.writer.(objects := e.objects), e.observations, e.manifest, false, map[], t.commits)
  }

  /** Request, listing and downloads, ending with exactly the files the method reads. */
  lemma TakesFiles(s: P.State, j: nat, request: Request, w: World, keys: seq<string>)
    requires !s.locked && s.jobs == map[] && P.IsListing(s.writer.objects, request.prefix, KeysOf(w.listing))
    requires keys == (if request.force then KeysOf(w.listing) else Unprocessed(KeysOf(w.listing), s.manifest.Keys))
    requires forall k | k in keys :: k in s.writer.objects
    ensures P.Reaches(s, Inside(s, j, Holding(request.prefix, request.force, keys,
                                              FilesOf(s.writer.objects, keys, w.picks))))
  {
    EnterAndSelect(s, j, request.prefix, request.force, KeysOf(w.listing));
    ArrangeKeys(keys, w.picks);
    FetchAll(s, j, request.prefix, request.force, keys, Arrange(keys, w.picks));
    P.ReachesTransitive(s, Inside(s, j, Holding(request.prefix, request.force, keys, map[])),
                        Inside(s, j, Holding(request.prefix, request.force, keys,
                                             FilesOf(s.writer.objects, keys, w.picks))));
  }

  /** From any point inside, the job stores its first n output files. */
  lemma StoresOutput(s: P.State, j: nat, job: P.Job, request: Request, w: World, keys: seq<string>, n: nat,
                     stored: map<string, seq<Row>>)
    requires P.Inv(s) && (forall k | k in keys :: k in s.writer.objects)
    requires P.Busy(job.stage) ==> job.stage.objects == keys
    requires SilverUpTo(request, w, s.writer.objects, keys, n, stored)
    requires forall i | 0 <= i < n :: SilverKey(request.runId, w, i) !in s.writer.objects
    ensures P.Reaches(Inside(s, j, job), WithObjects(Inside(s, j, job), stored))
  {
    SilverUnused(s, request.runId, w, n, keys, job, j);
    PutAll(Inside(s, j, job), SilverNames(request.runId, w), Output(w, s.writer.objects, keys)[..n]);
  }

  /** A job that loads: request, listing, downloads, output files, load, release. */
  lemma LoadingJob(s: P.State, j: nat, request: Request, w: World, keys: seq<string>, n: nat, e: Effect)
    returns (t: P.State)
    requires P.Inv(s) && !s.locked && s.jobs == map[]
    requires P.IsListing(s.writer.objects, request.prefix, KeysOf(w.listing))
    requires keys == (if request.force then KeysOf(w.listing) else Unprocessed(KeysOf(w.listing), s.manifest.Keys))
    requires keys != [] && (forall k | k in keys :: k in s.writer.objects)
    requires AllLoaded(request, w, s.writer.objects, keys, (s.observations, s.manifest), (e.observations, e.manifest))
    requires SilverUpTo(request, w, s.writer.objects, keys, n, e.objects)
    requires forall i | 0 <= i < n :: SilverKey(request.runId, w, i) !in s.writer.objects
    ensures P.Reaches(s, t) && LeavesEffect(s, t, e)
  {
    ReadyToLoad(s, j, request, w, keys, n, e.objects);
    t := FromReady(s, j, request, w, keys, e);
  }

  lemma FromReady(s: P.State, j: nat, request: Request, w: World, keys: seq<string>, e: Effect) returns (t: P.State)
    requires keys != [] && (forall k | k in keys :: k in s.writer.objects)
    requires AllLoaded(request, w, s.writer.objects, keys, (s.observations, s.manifest), (e.observations, e.manifest))
    requires P.Reaches(s, WithObjects(Inside(s, j, Holding(request.prefix, request.force, keys,
                                                           FilesOf(s.writer.objects, keys, w.picks))), e.objects))
    ensures P.Reaches(s, t) && LeavesEffect(s, t, e)
  {
    var files := FilesOf(s.writer.objects, keys, w.picks);
    var ready := WithObjects(Inside(s, j, Holding(request.prefix, request.force, keys, files)), e.objects);
    t := LoadsAndLeaves(ready, j, request, w, keys, files, e.observations, e.manifest);
    P.ReachesTransitive(s, ready, t);
  }

  lemma ReadyToLoad(s: P.State, j: nat, request: Request, w: World, keys: seq<string>, n: nat,
                    stored: map<string, seq<Row>>)
    requires P.Inv(s) && !s.locked && s.jobs == map[]
    requires P.IsListing(s.writer.objects, request.prefix, KeysOf(w.listing))
    requires keys == (if request.force then KeysOf(w.listing) else Unprocessed(KeysOf(w.listing), s.manifest.Keys))
    requires forall k | k in keys :: k in s.writer.objects
    requires SilverUpTo(request, w, s.writer.objects, keys, n, stored)
    requires forall i | 0 <= i < n :: SilverKey(request.runId, w, i) !in s.writer.objects
    ensures P.Reaches(s, WithObjects(Inside(s, j, Holding(request.prefix, request.force, keys,
                                                          FilesOf(s.writer.objects, keys, w.picks))), stored))
  {
    var job := Holding(request.prefix, request.force, keys, FilesOf(s.writer.objects, keys, w.picks));
    TakesFiles(s, j, request, w, keys);
    StoresOutput(s, j, job, request, w, keys, n, stored);
    P.ReachesTransitive(s, Inside(s, j, job), WithObjects(Inside(s, j, job), stored));
  }

  lemma LoadsAndLeaves(ready: P.State, j: nat, request: Request, w: World, keys: seq<string>, files: Files,
                       observations: Warehouse.Table, manifest: Warehouse.Manifest)
    returns (t: P.State)
    requires ready.jobs.Keys == {j} && ready.jobs[j].stage == P.Working(keys, files)
    requires keys != [] && AllFetched(keys, files)
    requires FilesLoaded(request, w, keys, files, (ready.observations, ready.manifest), (observations, manifest))
    ensures P.Reaches(ready, t)
    ensures t == P.State(ready.writer, observations, manifest, false, map[], t.commits)
  {
    var loaded := Loads(ready, j, keys, files, EtagsOf(w.listing), request.runId, w.loadAt);
    t := loaded.(locked := false, jobs := map[]);
    LeavesOnly(loaded, j);
    P.ReachesTransitive(ready, loaded, t);
  }

  /** A job that loads nothing, whatever it stored before it found nothing or raised. */
  lemma FailingJob(s: P.State, j: nat, request: Request, w: World, keys: seq<string>, n: nat, e: Effect)
    returns (t: P.State)
    requires P.Inv(s) && !s.locked && s.jobs == map[] && (forall k | k in keys :: k in s.writer.objects)
    requires e.observations == s.observations && e.manifest == s.manifest
    requires SilverUpTo(request, w, s.writer.objects, keys, n, e.objects)
    requires forall i | 0 <= i < n :: SilverKey(request.runId, w, i) !in s.writer.objects
    ensures P.Reaches(s, t) && LeavesEffect(s, t, e)
  {
    var job := P.Job(request.prefix, request.force, P.Entered);
    var here := Inside(s, j, job);
    Enters(s, j, request.prefix, request.force);
    StoresOutput(s, j, job, request, w, keys, n, e.objects);
    var stored := WithObjects(here, e.objects);
    P.ReachesTransitive(s, here, stored);
    t := stored.(locked := false, jobs := map[]);
    LeavesOnly(stored, j);
    P.ReachesTransitive(s, stored, t);
  }

  /** Some output files are stored in any case; if the tables changed, everything selected was loaded. */
  lemma SilverCount(request: Request, w: World, objects: map<string, seq<Row>>, keys: seq<string>,
                    before: (Warehouse.Table, Warehouse.Manifest), attempt: Outcome, e: Effect) returns (n: nat)
    requires forall k | k in keys :: k in objects
    requires JobEffect(request, w, objects, keys, before, attempt, e.objects, (e.observations, e.manifest))
    ensures SilverUpTo(request, w, objects, keys, n, e.objects)
    ensures || (e.observations, e.manifest) == before
            || (keys != [] && AllLoaded(request, w, objects, keys, before, (e.observations, e.manifest)))
  {
    if w.startCall == Returns {
      n := FilesStored(request, w, objects, keys);
    } else {
      n := 0;
      Untouched(request, w, objects, keys);
    }
  }

  /**
   Whatever an undisturbed call of the runner's method does to tables and bucket, however it ends, a
   run of the interleaved protocol does. The names of its output files carry a fresh job id.
   */
  lemma UndisturbedJobIsABehaviour(s: P.State, j: nat, request: Request, w: World, attempt: Outcome, e: Effect)
    returns (t: P.State)
    requires P.Reachable(s) && !s.locked && s.jobs == map[]
    requires P.IsListing(s.writer.objects, request.prefix, KeysOf(w.listing))
    requires forall i: nat :: SilverKey(request.runId, w, i) !in s.writer.objects
    requires var keys := if request.force then KeysOf(w.listing) else Unprocessed(KeysOf(w.listing), s.manifest.Keys);
             && (forall k | k in keys :: k in s.writer.objects)
             && JobEffect(request, w, s.writer.objects, keys, (s.observations, s.manifest), attempt,
                          e.objects, (e.observations, e.manifest))
    ensures P.Reaches(s, t) && LeavesEffect(s, t, e)
  {
    P.ReachableInv(s);
    var keys := if request.force then KeysOf(w.listing) else Unprocessed(KeysOf(w.listing), s.manifest.Keys);
    var n := SilverCount(request, w, s.writer.objects, keys, (s.observations, s.manifest), attempt, e);
    if (e.observations, e.manifest) == (s.observations, s.manifest) {
      t := FailingJob(s, j, request, w, keys, n, e);
    } else {
      t := LoadingJob(s, j, request, w, keys, n, e);
    }
  }

  /** The response the DAG gets for an outcome. */
  function ReplyOf(outcome: Outcome): L.Reply {
    match outcome
    case NoNewData(_) => L.NothingNew
    case Transformed(a) => L.Completed(a)
    case Raised(_) => L.Refused
  }

  /**
   What the job writes to the run ledger, and what it answers, are steps of the publishing protocol,
   whichever of its calls to the database raise, before or after taking effect.
   */
  lemma LedgerWritesAreABehaviour(p: L.World, request: Request, w: World, attempt: Outcome)
    returns (end: L.World, steps: seq<L.Step>)
    requires p.lock.HeldBy? && p.lock.stage.Entered?
    requires attempt.Transformed? ==> RunLedger.Reconciled(attempt.attempt)
    ensures L.Behaviour(request.runId, p, steps, end)
    ensures end.runs == RunsAfter(p.runs, request, w, attempt)
    ensures end.answers == p.answers[p.lock.attempt := ReplyOf(Reported(w, attempt))]
    ensures end.lock == L.Free && end.client == p.client
  {
    var runId := request.runId;
    if w.startCall == FailsBefore {
      end, steps := Refuses(p, request, w, false, "");
    } else {
      var start := L.WriteStart(w.startedAt);
      var started := L.Next(runId, p, start);
      var rest;
      if w.startCall == FailsAfter {
        end, rest := Refuses(started, request, w, false, "");
      } else {
        end, rest := RecordedAreABehaviour(started, request, w, attempt);
      }
      L.Prepend(runId, p, start, rest, end);
      steps := [start] + rest;
    }
  }

  /** The job ends in an exception, recorded or not. */
  lemma Refuses(p: L.World, request: Request, w: World, recorded: bool, message: string)
    returns (end: L.World, steps: seq<L.Step>)
    requires p.lock.HeldBy?
    ensures L.Behaviour(request.runId, p, steps, end)
    ensures end.runs == if recorded
                        then RunLedger.FinishRun(p.runs, request.runId, RunLedger.FailedFinish(w.duration, message),
                                                 w.finishedAt)
                        else p.runs
    ensures end.answers == p.answers[p.lock.attempt := L.Refused] && end.lock == L.Free && end.client == p.client
  {
    var fails := L.JobFails(w.finishedAt, recorded, w.duration, message);
    end := L.Next(request.runId, p, fails);
    L.Prepend(request.runId, p, fails, [], end);
    steps := [fails] + [];
  }

  /** The work's own finish is written; the run is then answered, or its answer is lost. */
  lemma FinishedIsABehaviour(p: L.World, request: Request, w: World, attempt: Outcome)
    returns (end: L.World, step: L.Step)
    requires p.lock.HeldBy? && p.lock.stage.Started? && FinishApplied(w, attempt)
    requires attempt.Transformed? ==> RunLedger.Reconciled(attempt.attempt)
    ensures L.Enabled(request.runId, p, step) && end == L.Next(request.runId, p, step)
    ensures end.runs == RunLedger.FinishRun(p.runs, request.runId, FinishOf(w, attempt), w.finishedAt)
    ensures end.lock == p.lock.(stage := L.Written(ReplyOf(attempt)))
    ensures end.answers == p.answers && end.client == p.client
  {
    step := if attempt.NoNewData? then L.WriteNoData(w.finishedAt, w.duration)
            else L.WriteTransformed(w.finishedAt, attempt.attempt);
    end := L.Next(request.runId, p, step);
  }

  /** The reply goes out and the lock is free. */
  lemma Answers(p: L.World, runId: string) returns (end: L.World, steps: seq<L.Step>)
    requires p.lock.HeldBy? && p.lock.stage.Written?
    ensures L.Behaviour(runId, p, steps, end)
    ensures end == p.(answers := p.answers[p.lock.attempt := p.lock.stage.reply], lock := L.Free)
  {
    end := L.Next(runId, p, L.Answer);
    L.Prepend(runId, p, L.Answer, [], end);
    steps := [L.Answer] + [];
  }

  /** What follows the work's own finish: the answer, or the record of an exception. */
  lemma EndsAreABehaviour(p: L.World, request: Request, w: World, attempt: Outcome)
    returns (end: L.World, steps: seq<L.Step>)
    requires p.lock.HeldBy? && w.startCall == Returns
    requires Raises(w, attempt).None? ==> p.lock.stage == L.Written(ReplyOf(attempt))
    ensures L.Behaviour(request.runId, p, steps, end)
    ensures end.runs == if FailureApplied(w, attempt)
                        then RunLedger.FinishRun(p.runs, request.runId,
                                                 RunLedger.FailedFinish(w.duration, Raises(w, attempt).value),
                                                 w.finishedAt)
                        else p.runs
    ensures end.answers == p.answers[p.lock.attempt := ReplyOf(Reported(w, attempt))]
    ensures end.lock == L.Free && end.client == p.client
  {
    if Raises(w, attempt).Some? {
      end, steps := Refuses(p, request, w, w.failedCall != FailsBefore, Raises(w, attempt).value);
    } else {
      end, steps := Answers(p, request.runId);
    }
  }

  lemma RecordedInTwo(runs: RunLedger.Runs, request: Request, w: World, attempt: Outcome)
    ensures var finished := if FinishApplied(w, attempt)
                            then RunLedger.FinishRun(runs, request.runId, FinishOf(w, attempt), w.finishedAt) else runs;
            Recorded(runs, request, w, attempt)
            == if FailureApplied(w, attempt)
               then RunLedger.FinishRun(finished, request.runId,
                                        RunLedger.FailedFinish(w.duration, Raises(w, attempt).value), w.finishedAt)
               else finished
  {
  }

  lemma RecordedAreABehaviour(p: L.World, request: Request, w: World, attempt: Outcome)
    returns (end: L.World, steps: seq<L.Step>)
    requires p.lock.HeldBy? && p.lock.stage.Started? && w.startCall == Returns
    requires attempt.Transformed? ==> RunLedger.Reconciled(attempt.attempt)
    ensures L.Behaviour(request.runId, p, steps, end)
    ensures end.runs == Recorded(p.runs, request, w, attempt)
    ensures end.answers == p.answers[p.lock.attempt := ReplyOf(Reported(w, attempt))]
    ensures end.lock == L.Free && end.client == p.client
  {
    RecordedInTwo(p.runs, request, w, attempt);
    if FinishApplied(w, attempt) {
      var written, write := FinishedIsABehaviour(p, request, w, attempt);
      var rest;
      end, rest := EndsAreABehaviour(written, request, w, attempt);
      L.Prepend(request.runId, p, write, rest, end);
      steps := [write] + rest;
    } else {
      end, steps := EndsAreABehaviour(p, request, w, attempt);
    }
  }
}
