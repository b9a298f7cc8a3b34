/**
 The incremental fact table fct_traffic_observation. A build after the first takes only the
 staging rows stamped at or after the latest stamp already in the fact and replaces them by
 event id; a full rebuild takes all of them. Loads are serialised by the runner's job lock and
 stamp their rows with the clock at the start of their transaction. Builds, any number at once, read
 whatever loads have committed and write what they read into the fact of a later moment. Nothing in
 the code serialises builds: results hold while none writes between another's read and write, and
 `OverlappingBuildsLoseAnUpdate` shows why.
 */
module FactTable {
  import opened Base
  import opened Observations
  import opened Warehouse

  /** The columns of the fact; trace id, road name and coordinates stay behind. */
  datatype FactRow = FactRow(
    segmentId: Option<string>,
    areaCode: Option<string>,
    areaName: Option<string>,
    observedAt: int,
    ingestedAt: int,
    lengthKm: real,
    speedKph: real,
    referenceKph: Option<real>,
    volume: Option<int>,
    travelSeconds: real,
    isLate: bool,
    loadedAt: int
  )

  type Fact = map<EventId, FactRow>

  function Project(s: Stored): FactRow {
    var r := s.row;
    FactRow(r.segmentId, r.areaCode, r.areaName, r.observedAt, r.ingestedAt, r.lengthKm, r.speedKph,
            r.referenceKph, r.volume, r.travelSeconds, IsLate(r), s.loadedAt)
  }

  /** Every column of the fact shows the column of the same name; lateness follows from its own two times. */
  ghost predicate ShowsColumns(f: FactRow, s: Stored) {
    && f.segmentId == s.row.segmentId && f.areaCode == s.row.areaCode && f.areaName == s.row.areaName
    && f.observedAt == s.row.observedAt && f.ingestedAt == s.row.ingestedAt
    && f.lengthKm == s.row.lengthKm && f.speedKph == s.row.speedKph && f.referenceKph == s.row.referenceKph
    && f.volume == s.row.volume && f.travelSeconds == s.row.travelSeconds && f.loadedAt == s.loadedAt
    && (f.isLate <==> UnixSeconds(f.ingestedAt) - UnixSeconds(f.observedAt) > 900)
  }

  /** The fact holds the events of the table and shows of each what the table does. */
  ghost predicate Mirrors(fact: Fact, table: Table) {
    fact.Keys == table.Keys && forall id | id in table :: ShowsColumns(fact[id], table[id])
  }

  /** What a full rebuild would hold. */
  function FullRebuild(staging: Table): Fact {
    map id | id in staging :: Project(staging[id])
  }

  /** 1970-01-01, the watermark of an empty fact. */
  const EPOCH: int := 0

  /** The latest stamp in the fact, or the epoch if it holds nothing. */
  ghost predicate IsWatermark(fact: Fact, mark: int) {
    if fact == map[] then mark == EPOCH
    else
      && (forall id | id in fact :: fact[id].loadedAt <= mark)
      && exists id :: id in fact && fact[id].loadedAt == mark
  }

  /** The rows an incremental build selects. */
  function Delta(staging: Table, mark: int): Fact {
    map id | id in staging && staging[id].loadedAt >= mark :: Project(staging[id])
  }

  /** Selected rows replace the fact's rows of the same event id. */
  function IncrementalBuild(fact: Fact, staging: Table, mark: int): Fact {
    fact + Delta(staging, mark)
  }

  lemma FullRebuildMirrors(staging: Table)
    ensures Mirrors(FullRebuild(staging), staging)
  {
    assert FullRebuild(staging).Keys == staging.Keys;
  }

  /**
   One incremental build equals the full rebuild exactly when the fact invents no event and
   every staging row it lacks or shows differently is stamped at or after the watermark.
   */
  lemma BuildIsFullRebuild(fact: Fact, staging: Table, mark: int)
    ensures IncrementalBuild(fact, staging, mark) == FullRebuild(staging) <==>
            && fact.Keys <= staging.Keys
            && forall id | id in staging && !(id in fact && fact[id] == Project(staging[id])) ::
                 staging[id].loadedAt >= mark
    ensures Mirrors(FullRebuild(staging), staging)
  {
    FullRebuildMirrors(staging);
    var built, full := IncrementalBuild(fact, staging, mark), FullRebuild(staging);
    if built == full {
      assert built.Keys == full.Keys;
      forall id | id in fact
        ensures id in staging
      {
        assert id in built;
      }
      forall id | id in staging && !(id in fact && fact[id] == Project(staging[id]))
        ensures staging[id].loadedAt >= mark
      {
        assert built[id] == full[id];
      }
    }
    if && fact.Keys <= staging.Keys
       && forall id | id in staging && !(id in fact && fact[id] == Project(staging[id])) ::
            staging[id].loadedAt >= mark {
      assert built.Keys == full.Keys;
      assert forall id | id in full :: built[id] == full[id];
    }
  }

  /**
   Why the lock matters: two loads that overlap and commit against the order of their starts
   lose a row for good, because the build between them moves the watermark past it. The load started
   first commits last.
   */
  lemma OverlappingLoadsLoseARow(r: Row, other: EventId)
    requires r.eventId != other
    ensures var early, late := Stored(r, 1), Stored(r.(eventId := other), 2);
            var first: Table := map[other := late];
            var second := first[r.eventId := early];
            var fact := FullRebuild(first);
            && IsWatermark(fact, 2)
            && IncrementalBuild(fact, second, 2) != FullRebuild(second)
            && r.eventId !in IncrementalBuild(fact, second, 2)
  {
    var late := Stored(r.(eventId := other), 2);
    var first: Table := map[other := late];
    var fact := FullRebuild(first);
    assert other in fact && fact[other].loadedAt == 2;
    var second := first[r.eventId := Stored(r, 1)];
    assert second[r.eventId].loadedAt < 2;
    assert r.eventId in FullRebuild(second);
  }

  // ---- Loads and builds interleaved -----------------------------------------------------

  /** A load transaction in progress and the clock at its start. */
  datatype Pending = Pending(start: int)

  /**
   A build that has read its rows: all of them where there was no fact yet, else those past the
   watermark. `snapshot` is what it read from, `written` how many builds had written by then.
   */
  datatype Build = Build(rows: Fact, creates: bool, snapshot: Table, written: nat)

  datatype World = World(
    staging: Table,              // committed rows
    clock: int,                  // latest instant seen
    load: Option<Pending>,       // at most one: the job lock
    fact: Option<Fact>,          // None until the first build
    builds: map<nat, Build>,     // in progress
    written: nat                 // builds that have written
  )

  datatype Step =
    | BeginLoad(now: int)
    | CommitLoad(rows: seq<Row>)
    | AbortLoad
    | BuildReads(build: nat, mark: int)
    | BuildWrites(build: nat)
    | BuildAborts(build: nat)

  ghost predicate Enabled(w: World, step: Step) {
    match step
    case BeginLoad(now) => w.load.None? && now >= w.clock
    case CommitLoad(rows) => w.load.Some? && DistinctIds(rows)
    case AbortLoad => w.load.Some?
    case BuildReads(b, mark) => b !in w.builds && (w.fact.Some? ==> IsWatermark(w.fact.value, mark))
    // Creating the table fails if another build has created it.
    case BuildWrites(b) => b in w.builds && (w.builds[b].creates <==> w.fact.None?)
    case BuildAborts(b) => b in w.builds
  }

  function ReadBuild(fact: Option<Fact>, staging: Table, mark: int, written: nat): Build {
    if fact.None? then Build(FullRebuild(staging), true, staging, written)
    else Build(Delta(staging, mark), false, staging, written)
  }

  /** The fact after a build writes: selected rows replace those of the same event id. */
  function Written(fact: Option<Fact>, rows: Fact): Fact {
    if fact.None? then rows else fact.value + rows
  }

  ghost function Next(w: World, step: Step): World
    requires Enabled(w, step)
  {
    match step
    case BeginLoad(now) => w.(clock := now, load := Some(Pending(now)))
    case CommitLoad(rows) => w.(staging := Upsert(w.staging, rows, w.load.value.start), load := None)
    case AbortLoad => w.(load := None)
    case BuildReads(b, mark) => w.(builds := w.builds[b := ReadBuild(w.fact, w.staging, mark, w.written)])
    case BuildWrites(b) =>
      w.(fact := Some(Written(w.fact, w.builds[b].rows)), builds := w.builds - {b}, written := w.written + 1)
    case BuildAborts(b) => w.(builds := w.builds - {b})
  }

  ghost predicate Init(w: World) {
    w.staging == map[] && w.clock >= EPOCH && w.load.None? && w.fact.None? && w.builds == map[] && w.written == 0
  }

  ghost predicate Behaviour(w: World, steps: seq<Step>, end: World)
    decreases |steps|
  {
    if steps == [] then w == end
    else Enabled(w, steps[0]) && Behaviour(Next(w, steps[0]), steps[1..], end)
  }

  /** No other build has written since this one read. */
  ghost predicate Undisturbed(w: World, b: nat) {
    b in w.builds && w.builds[b].written == w.written
  }

  /** In this run no build writes between another's read and write. */
  ghost predicate WritesApart(w: World, steps: seq<Step>)
    decreases |steps|
  {
    steps != [] ==>
      && Enabled(w, steps[0])
      && (steps[0].BuildWrites? ==> Undisturbed(w, steps[0].build))
      && WritesApart(Next(w, steps[0]), steps[1..])
  }

  /**
   The fact invents no event, and wherever it lags behind the staging rows, the lagging row is
   stamped at or after every stamp in the fact.
   */
  ghost predicate LagsOnlyAhead(fact: Fact, staging: Table) {
    && fact.Keys <= staging.Keys
    && forall id, other | id in staging && other in fact && !(id in fact && fact[id] == Project(staging[id])) ::
         fact[other].loadedAt <= staging[id].loadedAt
  }

  /** Stamps are transaction starts: none is ahead of the clock or of the load in progress. */
  ghost predicate StampsInv(w: World) {
    && w.clock >= EPOCH
    && (forall id | id in w.staging ::
          EPOCH <= w.staging[id].loadedAt <= if w.load.Some? then w.load.value.start else w.clock)
    && (w.load.Some? ==> EPOCH <= w.load.value.start <= w.clock)
  }

  /** What this build would leave is the full rebuild of what it read. */
  ghost predicate BuildInv(fact: Option<Fact>, staging: Table, build: Build) {
    && Written(fact, build.rows) == FullRebuild(build.snapshot)
    && LagsOnlyAhead(FullRebuild(build.snapshot), staging)
  }

  ghost predicate Inv(w: World) {
    && StampsInv(w)
    && (w.fact.Some? ==> LagsOnlyAhead(w.fact.value, w.staging))
    && (forall b | b in w.builds :: w.builds[b].written <= w.written)
    && (forall b | Undisturbed(w, b) :: BuildInv(w.fact, w.staging, w.builds[b]))
  }

  lemma CommitKeepsLag(fact: Fact, staging: Table, rows: seq<Row>, start: int)
    requires LagsOnlyAhead(fact, staging) && DistinctIds(rows)
    requires forall id | id in staging :: staging[id].loadedAt <= start
    ensures LagsOnlyAhead(fact, Upsert(staging, rows, start))
  {
    var after := Upsert(staging, rows, start);
    UpsertEffect(staging, rows, start);
    FactStampsBounded(fact, staging, start);
    forall id, other | id in after && other in fact && !(id in fact && fact[id] == Project(after[id]))
      ensures fact[other].loadedAt <= after[id].loadedAt
    {
      if id in Ids(rows) {
        var r :| r in rows && r.eventId == id;
        assert after[r.eventId] == Stored(r, start);
      }
    }
  }

  lemma FactStampsBounded(fact: Fact, staging: Table, bound: int)
    requires LagsOnlyAhead(fact, staging)
    requires forall id | id in staging :: staging[id].loadedAt <= bound
    ensures forall id | id in fact :: fact[id].loadedAt <= bound
  {
  }

  lemma CommitKeepsStamps(w: World, rows: seq<Row>)
    requires StampsInv(w) && Enabled(w, CommitLoad(rows))
    ensures StampsInv(Next(w, CommitLoad(rows)))
  {
    var start, after := w.load.value.start, Next(w, CommitLoad(rows)).staging;
    UpsertEffect(w.staging, rows, start);
    forall id | id in after
      ensures EPOCH <= after[id].loadedAt <= w.clock
    {
      if id in Ids(rows) {
        var r :| r in rows && r.eventId == id;
        assert after[r.eventId] == Stored(r, start);
      }
    }
  }

  lemma CommitKeepsInv(w: World, rows: seq<Row>)
    requires Inv(w) && Enabled(w, CommitLoad(rows))
    ensures Inv(Next(w, CommitLoad(rows)))
  {
    var t, start := Next(w, CommitLoad(rows)), w.load.value.start;
    CommitKeepsStamps(w, rows);
    if w.fact.Some? {
      CommitKeepsLag(w.fact.value, w.staging, rows, start);
    }
    forall b | Undisturbed(t, b)
      ensures BuildInv(t.fact, t.staging, t.builds[b])
    {
      assert Undisturbed(w, b);
      CommitKeepsLag(FullRebuild(w.builds[b].snapshot), w.staging, rows, start);
    }
  }

  lemma ReadsFullRebuild(fact: Fact, staging: Table, mark: int)
    requires LagsOnlyAhead(fact, staging) && IsWatermark(fact, mark)
    requires forall id | id in staging :: staging[id].loadedAt >= EPOCH
    ensures fact + Delta(staging, mark) == FullRebuild(staging)
  {
    BuildIsFullRebuild(fact, staging, mark);
  }

  lemma ReadBuildInv(fact: Option<Fact>, staging: Table, mark: int, written: nat)
    requires fact.Some? ==> LagsOnlyAhead(fact.value, staging) && IsWatermark(fact.value, mark)
    requires forall id | id in staging :: staging[id].loadedAt >= EPOCH
    ensures BuildInv(fact, staging, ReadBuild(fact, staging, mark, written))
  {
    if fact.Some? {
      ReadsFullRebuild(fact.value, staging, mark);
    }
  }

  lemma ReadsKeepInv(w: World, b: nat, mark: int)
    requires Inv(w) && Enabled(w, BuildReads(b, mark))
    ensures Inv(Next(w, BuildReads(b, mark)))
  {
    var t := Next(w, BuildReads(b, mark));
    ReadBuildInv(w.fact, w.staging, mark, w.written);
    forall c | Undisturbed(t, c)
      ensures BuildInv(t.fact, t.staging, t.builds[c])
    {
      if c != b {
        assert Undisturbed(w, c);
      }
    }
  }

  lemma WritesKeepInv(w: World, b: nat)
    requires Inv(w) && Enabled(w, BuildWrites(b)) && Undisturbed(w, b)
    ensures Inv(Next(w, BuildWrites(b)))
  {
    assert BuildInv(w.fact, w.staging, w.builds[b]);
    assert forall c :: !Undisturbed(Next(w, BuildWrites(b)), c);
  }

  lemma AbortKeepsInv(w: World, b: nat)
    requires Inv(w) && Enabled(w, BuildAborts(b))
    ensures Inv(Next(w, BuildAborts(b)))
  {
    assert forall c :: Undisturbed(Next(w, BuildAborts(b)), c) ==> Undisturbed(w, c);
  }

  lemma StepKeepsInv(w: World, step: Step)
    requires Inv(w) && Enabled(w, step)
    requires step.BuildWrites? ==> Undisturbed(w, step.build)
    ensures Inv(Next(w, step))
  {
    match step
    case BeginLoad(_) => assert forall b :: Undisturbed(Next(w, step), b) ==> Undisturbed(w, b);
    case CommitLoad(rows) => CommitKeepsInv(w, rows);
    case AbortLoad => assert forall b :: Undisturbed(Next(w, step), b) ==> Undisturbed(w, b);
    case BuildReads(b, mark) => ReadsKeepInv(w, b, mark);
    case BuildWrites(b) => WritesKeepInv(w, b);
    case BuildAborts(b) => AbortKeepsInv(w, b);
  }

  lemma {:induction false} BehaviourKeepsInv(w: World, steps: seq<Step>, end: World)
    requires Inv(w) && Behaviour(w, steps, end) && WritesApart(w, steps)
    ensures Inv(end)
    decreases |steps|
  {
    if steps != [] {
      StepKeepsInv(w, steps[0]);
      BehaviourKeepsInv(Next(w, steps[0]), steps[1..], end);
    }
  }

  lemma {:induction false} Chain(w: World, first: seq<Step>, v: World, second: seq<Step>, end: World)
    requires Behaviour(w, first, v) && Behaviour(v, second, end)
    ensures Behaviour(w, first + second, end)
    ensures WritesApart(w, first) && WritesApart(v, second) ==> WritesApart(w, first + second)
    decreases |first|
  {
    if first == [] {
      assert first + second == second;
    } else {
      Chain(Next(w, first[0]), first[1..], v, second, end);
      assert (first + second)[1..] == first[1..] + second;
    }
  }

  /**
   In every interleaving of serialised loads and of builds, with aborts anywhere, in which no build
   writes between another's read and write: each build that writes leaves the fact equal to a full
   rebuild of the committed rows it read.
   */
  lemma EveryBuildEqualsFullRebuild(w: World, steps: seq<Step>, end: World, b: nat)
    requires Init(w) && Behaviour(w, steps, end) && WritesApart(w, steps)
    requires Undisturbed(end, b) && Enabled(end, BuildWrites(b))
    ensures Next(end, BuildWrites(b)).fact == Some(FullRebuild(end.builds[b].snapshot))
    ensures Mirrors(Next(end, BuildWrites(b)).fact.value, end.builds[b].snapshot)
  {
    FullRebuildMirrors(end.builds[b].snapshot);
    BehaviourKeepsInv(w, steps, end);
    assert BuildInv(end.fact, end.staging, end.builds[b]);
  }

  // ---- Builds that overlap --------------------------------------------------------------

  /**
   What a build that was overtaken does: over the full rebuild another has just left it writes rows
   read earlier. The next incremental build repairs that exactly when each row thus put back is, as
   the warehouse has it now, stamped at or after the watermark.
   */
  lemma OvertakenBuild(staging: Table, stale: Fact, mark: int)
    requires stale.Keys <= staging.Keys
    ensures IncrementalBuild(FullRebuild(staging) + stale, staging, mark) == FullRebuild(staging) <==>
            forall id | id in stale && stale[id] != Project(staging[id]) :: staging[id].loadedAt >= mark
  {
    var fact := FullRebuild(staging) + stale;
    BuildIsFullRebuild(fact, staging, mark);
    assert forall id | id in staging ::
        !(id in fact && fact[id] == Project(staging[id])) <==> id in stale && stale[id] != Project(staging[id]);
  }

  ghost predicate Reachable(w: World) {
    exists start, steps :: Init(start) && Behaviour(start, steps, w)
  }

  lemma Extend(w: World, step: Step) returns (t: World)
    requires Reachable(w) && Enabled(w, step)
    ensures t == Next(w, step) && Reachable(t)
  {
    t := Next(w, step);
    var start, steps :| Init(start) && Behaviour(start, steps, w);
    assert [step][1..] == [] && Behaviour(t, [], t);
    Chain(start, steps, w, [step], t);
  }

  /** A load of one row from its start to its commit. */
  lemma LoadOne(w: World, r: Row, now: int) returns (t: World)
    requires Reachable(w) && w.load.None? && now >= w.clock
    ensures Reachable(t) && t == w.(staging := w.staging[r.eventId := Stored(r, now)], clock := now)
  {
    t := Extend(w, BeginLoad(now));
    t := Extend(t, CommitLoad([r]));
    assert [r][..0] == [];
    assert Upsert(w.staging, [r], now) == w.staging[r.eventId := Stored(r, now)];
  }

  /** A build from its reading to its writing, with no other beside it. */
  lemma BuildOne(w: World, b: nat, mark: int) returns (t: World)
    requires Reachable(w) && Enabled(w, BuildReads(b, mark))
    ensures Reachable(t)
    ensures t == w.(fact := Some(Written(w.fact, ReadBuild(w.fact, w.staging, mark, w.written).rows)),
                    written := w.written + 1)
  {
    t := Extend(w, BuildReads(b, mark));
    t := Extend(t, BuildWrites(b));
    assert t.builds == w.builds;
  }

  lemma MarkAt(fact: Fact, id: EventId, mark: int)
    requires id in fact && fact[id].loadedAt == mark && forall k | k in fact :: fact[k].loadedAt <= mark
    ensures IsWatermark(fact, mark)
  {
  }

  /** The row as the fact shows it when it was stamped at 1. */
  function Early(r: Row): Fact {
    map[r.eventId := Project(Stored(r, 1))]
  }

  /** A row stamped at 2 and another at 3. */
  function Restamped(r: Row, other: EventId): Table {
    map[r.eventId := Stored(r, 2), other := Stored(r.(eventId := other), 3)]
  }

  /** The row loaded and in the fact, and a build that has read it. */
  lemma FirstBuilds(r: Row) returns (w: World)
    ensures Reachable(w)
    ensures w == World(map[r.eventId := Stored(r, 1)], 1, None, Some(Early(r)),
                       map[1 := Build(Early(r), false, map[r.eventId := Stored(r, 1)], 1)], 1)
  {
    w := World(map[], EPOCH, None, None, map[], 0);
    assert Init(w) && Behaviour(w, [], w);
    w := LoadOne(w, r, 1);
    w := BuildOne(w, 0, 0);
    assert w.fact.value == Early(r);
    MarkAt(Early(r), r.eventId, 1);
    w := Extend(w, BuildReads(1, 1));
    assert Delta(w.staging, 1) == Early(r);
  }

  /** Then the row is stamped anew, another is loaded, and a second build overtakes the first. */
  lemma Overtaken(w: World, r: Row, other: EventId) returns (t: World)
    requires r.eventId != other && Reachable(w)
    requires w == World(map[r.eventId := Stored(r, 1)], 1, None, Some(Early(r)),
                        map[1 := Build(Early(r), false, map[r.eventId := Stored(r, 1)], 1)], 1)
    ensures Reachable(t)
    ensures t == w.(staging := Restamped(r, other), clock := 3, fact := Some(FullRebuild(Restamped(r, other))),
                    written := 2)
  {
    t := LoadOne(w, r, 2);
    t := LoadOne(t, r.(eventId := other), 3);
    assert t.staging == Restamped(r, other);
    MarkAt(Early(r), r.eventId, 1);
    t := BuildOne(t, 2, 1);
    AllSelected(r, other);
  }

  lemma AllSelected(r: Row, other: EventId)
    requires r.eventId != other
    ensures Written(Some(Early(r)), Delta(Restamped(r, other), 1)) == FullRebuild(Restamped(r, other))
  {
    assert Delta(Restamped(r, other), 1) == FullRebuild(Restamped(r, other));
  }

  /**
   Why builds must not overlap, serialised loads or not: a build that was overtaken puts back a row
   whose new stamp the watermark has passed, and no later build, however alone, finds it again.
   */
  lemma OverlappingBuildsLoseAnUpdate(r: Row, other: EventId) returns (w: World)
    requires r.eventId != other
    ensures Reachable(w) && w.builds.Keys == {3} && Undisturbed(w, 3) && Enabled(w, BuildWrites(3))
    ensures w.builds[3].snapshot == w.staging && r.eventId in w.staging
    ensures r.eventId in Next(w, BuildWrites(3)).fact.value
    ensures Next(w, BuildWrites(3)).fact.value[r.eventId] != Project(w.staging[r.eventId])
  {
    w := FirstBuilds(r);
    w := Overtaken(w, r, other);
    w := Extend(w, BuildWrites(1));
    assert w.builds == map[];
    assert w.fact.value[r.eventId] == Early(r)[r.eventId];
    MarkAt(w.fact.value, other, 3);
    w := Extend(w, BuildReads(3, 3));
    assert r.eventId !in w.builds[3].rows;
  }
}
