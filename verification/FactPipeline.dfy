/**
 The incremental fact table beside the whole pipeline. That loads are serialised is not assumed here
 but comes from the job lock: every run of pipeline and builds is a run of serialised loads and
 builds. What remains assumed is a database clock that does not run backwards between loads, and that
 no build writes between another's read and write: the lock says nothing of builds.
 */
module FactPipeline {
  import opened Base
  import Warehouse
  import F = FactTable
  import P = Pipeline

  datatype World = World(
    pipe: P.State,
    clock: int,
    fact: Option<F.Fact>,
    builds: map<nat, F.Build>,
    written: nat
  )

  datatype Step =
    | PipelineStep(step: P.Step)
    | BuildReads(build: nat, mark: int)
    | BuildWrites(build: nat)
    | BuildAborts(build: nat)

  ghost predicate Enabled(w: World, step: Step) {
    match step
    case PipelineStep(p) => P.Enabled(w.pipe, p) && (p.BeginLoad? ==> p.now >= w.clock)
    case BuildReads(b, mark) => b !in w.builds && (w.fact.Some? ==> F.IsWatermark(w.fact.value, mark))
    case BuildWrites(b) => b in w.builds && (w.builds[b].creates <==> w.fact.None?)
    case BuildAborts(b) => b in w.builds
  }

  ghost function Next(w: World, step: Step): World
    requires Enabled(w, step)
  {
    match step
    case PipelineStep(p) => w.(pipe := P.Next(w.pipe, p), clock := if p.BeginLoad? then p.now else w.clock)
    case BuildReads(b, mark) =>
      w.(builds := w.builds[b := F.ReadBuild(w.fact, w.pipe.observations, mark, w.written)])
    case BuildWrites(b) =>
      w.(fact := Some(F.Written(w.fact, w.builds[b].rows)), builds := w.builds - {b}, written := w.written + 1)
    case BuildAborts(b) => w.(builds := w.builds - {b})
  }

  predicate Init(w: World) {
    P.Init(w.pipe) && w.clock >= F.EPOCH && w.fact.None? && w.builds == map[] && w.written == 0
  }

  ghost predicate Behaviour(w: World, steps: seq<Step>, end: World)
    decreases |steps|
  {
    if steps == [] then w == end
    else Enabled(w, steps[0]) && Behaviour(Next(w, steps[0]), steps[1..], end)
  }

  /** No other build has written since this one read. */
  ghost predicate Undisturbed(w: World, b: nat) {
    b in w.builds && w.builds[b].written == w.written
  }

  /** In this run no build writes between another's read and write. */
  ghost predicate WritesApart(w: World, steps: seq<Step>)
    decreases |steps|
  {
    steps != [] ==>
      && Enabled(w, steps[0])
      && (steps[0].BuildWrites? ==> Undisturbed(w, steps[0].build))
      && WritesApart(Next(w, steps[0]), steps[1..])
  }

  /** A build may begin at any moment beside any others and be given up at any later one, without a trace. */
  lemma AbortedBuildLeavesNoTrace(w: World, b: nat, mark: int)
    requires b !in w.builds && (w.fact.Some? ==> F.IsWatermark(w.fact.value, mark))
    ensures Enabled(w, BuildReads(b, mark)) && Enabled(Next(w, BuildReads(b, mark)), BuildAborts(b))
    ensures Next(Next(w, BuildReads(b, mark)), BuildAborts(b)) == w
  {
    assert w.builds[b := F.ReadBuild(w.fact, w.pipe.observations, mark, w.written)] - {b} == w.builds;
  }

  // ---- The serialised view ----------------------------------------------------------------

  /** The open load transaction, if a job has one. */
  ghost function OpenLoad(jobs: map<nat, P.Job>): Option<F.Pending> {
    if exists j :: j in jobs && jobs[j].stage.Loading? then
      var j :| j in jobs && jobs[j].stage.Loading?;
      Some(F.Pending(jobs[j].stage.start))
    else None
  }

  ghost function View(w: World): F.World {
    F.World(w.pipe.observations, w.clock, OpenLoad(w.pipe.jobs), w.fact, w.builds, w.written)
  }

  /** Under the lock, the stage of the one job inside tells the open load. */
  lemma OnlyLoad(jobs: map<nat, P.Job>, j: nat)
    requires j in jobs && forall i | i in jobs :: i == j
    ensures OpenLoad(jobs) == if jobs[j].stage.Loading? then Some(F.Pending(jobs[j].stage.start)) else None
  {
  }

  /** What a step is in the serialised view, if it shows there at all. */
  ghost function Shadow(w: World, step: Step): seq<F.Step>
    requires Enabled(w, step)
  {
    match step
    case PipelineStep(p) =>
      (match p
       case BeginLoad(_, now) => [F.BeginLoad(now)]
       case CommitLoad(_, latest, _, _) => [F.CommitLoad(latest)]
       case Leave(_) => if OpenLoad(w.pipe.jobs).Some? then [F.AbortLoad] else []
       case RunnerCrash => if OpenLoad(w.pipe.jobs).Some? then [F.AbortLoad] else []
       case _ => [])
    case BuildReads(b, mark) => [F.BuildReads(b, mark)]
    case BuildWrites(b) => [F.BuildWrites(b)]
    case BuildAborts(b) => [F.BuildAborts(b)]
  }

  lemma OneStep(w: F.World, step: F.Step)
    requires F.Enabled(w, step)
    ensures F.Behaviour(w, [step], F.Next(w, step))
  {
    assert [step][1..] == [];
    assert F.Behaviour(F.Next(w, step), [], F.Next(w, step));
  }

  lemma BeginShows(w: World, step: Step)
    requires P.LockInv(w.pipe) && Enabled(w, step) && step.PipelineStep? && step.step.BeginLoad?
    ensures F.Behaviour(View(w), Shadow(w, step), View(Next(w, step)))
  {
    var j := step.step.job;
    OnlyLoad(w.pipe.jobs, j);
    OnlyLoad(Next(w, step).pipe.jobs, j);
    OneStep(View(w), F.BeginLoad(step.step.now));
  }

  lemma CommitShows(w: World, step: Step)
    requires P.LockInv(w.pipe) && Enabled(w, step) && step.PipelineStep? && step.step.CommitLoad?
    ensures F.Behaviour(View(w), Shadow(w, step), View(Next(w, step)))
  {
    var j := step.step.job;
    OnlyLoad(w.pipe.jobs, j);
    OnlyLoad(Next(w, step).pipe.jobs, j);
    OneStep(View(w), F.CommitLoad(step.step.latest));
  }

  lemma LeaveShows(w: World, step: Step)
    requires P.LockInv(w.pipe) && Enabled(w, step) && step.PipelineStep? && (step.step.Leave? || step.step.RunnerCrash?)
    ensures F.Behaviour(View(w), Shadow(w, step), View(Next(w, step)))
  {
    assert Next(w, step).pipe.jobs == map[];
    assert OpenLoad(map[]) == None;
    if OpenLoad(w.pipe.jobs).Some? {
      OneStep(View(w), F.AbortLoad);
    }
  }

  lemma StageShows(w: World, step: Step, j: nat)
    requires P.LockInv(w.pipe) && Enabled(w, step) && step.PipelineStep?
    requires j in w.pipe.jobs && !w.pipe.jobs[j].stage.Loading?
    requires (step.step.List? || step.step.Filter? || step.step.Fetch?) && step.step.job == j
    ensures F.Behaviour(View(w), Shadow(w, step), View(Next(w, step)))
  {
    OnlyLoad(w.pipe.jobs, j);
    OnlyLoad(Next(w, step).pipe.jobs, j);
  }

  lemma RequestShows(w: World, step: Step)
    requires P.LockInv(w.pipe) && Enabled(w, step) && step.PipelineStep? && step.step.Request?
    ensures F.Behaviour(View(w), Shadow(w, step), View(Next(w, step)))
  {
    if !w.pipe.locked {
      assert w.pipe.jobs == map[];
      OnlyLoad(Next(w, step).pipe.jobs, step.step.job);
    }
  }

  lemma PipelineStepShows(w: World, p: P.Step)
    requires P.LockInv(w.pipe) && Enabled(w, PipelineStep(p))
    ensures F.Behaviour(View(w), Shadow(w, PipelineStep(p)), View(Next(w, PipelineStep(p))))
  {
    match p
    case WriterStep(_) =>
    case Request(_, _, _) => RequestShows(w, PipelineStep(p));
    case List(j, _) => StageShows(w, PipelineStep(p), j);
    case Filter(j) => StageShows(w, PipelineStep(p), j);
    case Fetch(j, _) => StageShows(w, PipelineStep(p), j);
    case BeginLoad(_, _) => BeginShows(w, PipelineStep(p));
    case CommitLoad(_, _, _, _) => CommitShows(w, PipelineStep(p));
    case Leave(_) => LeaveShows(w, PipelineStep(p));
    case RunnerCrash => LeaveShows(w, PipelineStep(p));
  }

  /** Every step is one step of the serialised view, or invisible there. */
  lemma StepShows(w: World, step: Step)
    requires P.LockInv(w.pipe) && Enabled(w, step)
    ensures F.Behaviour(View(w), Shadow(w, step), View(Next(w, step)))
  {
    match step
    case PipelineStep(p) => PipelineStepShows(w, p);
    case BuildReads(b, mark) => OneStep(View(w), F.BuildReads(b, mark));
    case BuildWrites(b) => OneStep(View(w), F.BuildWrites(b));
    case BuildAborts(b) => OneStep(View(w), F.BuildAborts(b));
  }

  /** Where the step does not disturb a build, neither does its shadow. */
  lemma ShadowApart(w: World, step: Step)
    requires P.LockInv(w.pipe) && Enabled(w, step)
    requires step.BuildWrites? ==> Undisturbed(w, step.build)
    ensures F.WritesApart(View(w), Shadow(w, step))
  {
    StepShows(w, step);
    var shadow := Shadow(w, step);
    if shadow != [] {
      assert shadow[1..] == [];
    }
  }

  lemma {:induction false} RunShows(w: World, steps: seq<Step>, end: World) returns (shadow: seq<F.Step>)
    requires P.Inv(w.pipe) && Behaviour(w, steps, end) && WritesApart(w, steps)
    ensures F.Behaviour(View(w), shadow, View(end)) && F.WritesApart(View(w), shadow)
    decreases |steps|
  {
    if steps == [] {
      shadow := [];
    } else {
      StepShows(w, steps[0]);
      ShadowApart(w, steps[0]);
      if steps[0].PipelineStep? {
        P.StepKeepsInv(w.pipe, steps[0].step);
      }
      var rest := RunShows(Next(w, steps[0]), steps[1..], end);
      F.Chain(View(w), Shadow(w, steps[0]), View(Next(w, steps[0])), rest, View(end));
      shadow := Shadow(w, steps[0]) + rest;
    }
  }

  /**
   Through crashes, refused requests, failing loads and aborted builds in any interleaving in which no
   build writes between another's read and write: each build that writes leaves the fact equal to a
   full rebuild of the warehouse it read.
   */
  lemma EveryBuildFollowsThePipeline(w: World, steps: seq<Step>, end: World, b: nat)
    requires Init(w) && Behaviour(w, steps, end) && WritesApart(w, steps)
    requires Undisturbed(end, b) && Enabled(end, BuildWrites(b))
    ensures Next(end, BuildWrites(b)).fact == Some(F.FullRebuild(end.builds[b].snapshot))
    ensures F.Mirrors(Next(end, BuildWrites(b)).fact.value, end.builds[b].snapshot)
  {
    P.InitInv(w.pipe);
    assert OpenLoad(map[]) == None;
    var shadow := RunShows(w, steps, end);
    F.EveryBuildEqualsFullRebuild(View(w), shadow, View(end), b);
  }
}
