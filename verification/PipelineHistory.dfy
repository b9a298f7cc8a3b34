/**
 What the warehouse of the pipeline shows, row by row: it is the history of the committed loads and
 of nothing else, so the results about histories of loads hold of every reachable state.
 */
module PipelineHistory {
  import opened Observations
  import KeyFlattening
  import Dedup
  import opened Warehouse
  import opened Pipeline

  /** The committed loads as the warehouse sees them. */
  function LoadsOf(commits: seq<Commit>): seq<Load> {
    if commits == [] then []
    else
      var c := commits[|commits| - 1];
      LoadsOf(commits[..|commits| - 1]) + [Load(c.frame, c.latest, c.at)]
  }

  lemma {:induction false} LoadsOfAt(commits: seq<Commit>)
    ensures |LoadsOf(commits)| == |commits|
    ensures forall i | 0 <= i < |commits| ::
              LoadsOf(commits)[i] == Load(commits[i].frame, commits[i].latest, commits[i].at)
  {
    if commits != [] {
      LoadsOfAt(commits[..|commits| - 1]);
    }
  }

  ghost predicate HistoryInv(s: State) {
    s.observations == AfterLoads(map[], LoadsOf(s.commits))
  }

  lemma HistorySnoc(commits: seq<Commit>, c: Commit)
    ensures AfterLoads(map[], LoadsOf(commits + [c])) == Upsert(AfterLoads(map[], LoadsOf(commits)), c.latest, c.at)
  {
    assert (commits + [c])[..|commits|] == commits;
    var loads := LoadsOf(commits + [c]);
    assert loads[..|loads| - 1] == LoadsOf(commits);
  }

  lemma StepKeepsHistory(s: State, step: Step)
    requires Enabled(s, step) && HistoryInv(s)
    ensures HistoryInv(Next(s, step))
  {
    if step.CommitLoad? {
      HistorySnoc(s.commits, Next(s, step).commits[|s.commits|]);
    }
  }

  lemma {:induction false} RunKeepsHistory(s: State, steps: seq<Step>, end: State)
    requires HistoryInv(s) && Behaviour(s, steps, end)
    ensures HistoryInv(end)
    decreases |steps|
  {
    if steps != [] {
      StepKeepsHistory(s, steps[0]);
      RunKeepsHistory(Next(s, steps[0]), steps[1..], end);
    }
  }

  /**
   Row by row, the warehouse is the history of the committed loads and of nothing else: no crash,
   refused request or failed job shows in it. So the results about histories of loads hold of it.
   */
  lemma WarehouseIsHistory(s: State)
    requires Reachable(s)
    ensures ValidLoads(LoadsOf(s.commits)) && s.observations == AfterLoads(map[], LoadsOf(s.commits))
  {
    var w, steps :| Init(w) && Behaviour(w, steps, s);
    RunKeepsHistory(w, steps, s);
    ReachableInv(s);
    LoadsOfAt(s.commits);
    forall i | 0 <= i < |s.commits|
      ensures Dedup.LatestPerId(LoadsOf(s.commits)[i].frame, LoadsOf(s.commits)[i].latest)
    {
      assert CommitInv(s.writer.objects, s.manifest, s.commits[i]);
    }
  }

  /** Commit k is the last that read the id. */
  ghost predicate LastRead(s: State, id: EventId, k: nat) {
    && k < |s.commits| && id in Ids(s.commits[k].frame)
    && forall i | k < i < |s.commits| :: id !in Ids(s.commits[i].frame)
  }

  /**
   In every reachable state the warehouse shows of each id a row that the last load carrying the
   id kept, stamped with that load's clock; and it is the latest ingestion any committed load ever
   read exactly when that last load read one.
   */
  lemma ShownRow(s: State, id: EventId, k: nat)
    requires Reachable(s) && LastRead(s, id, k)
    ensures id in s.observations
    ensures s.observations[id].row in s.commits[k].latest && s.observations[id].loadedAt == s.commits[k].at
    ensures NoLaterThan(LoadsOf(s.commits), id, s.observations[id].row.ingestedAt) <==>
            exists x :: x in s.commits[k].frame && x.eventId == id && NoLaterThan(LoadsOf(s.commits), id, x.ingestedAt)
  {
    var loads := LoadsOf(s.commits);
    WarehouseIsHistory(s);
    LoadsOfAt(s.commits);
    assert LastMention(loads, id, k);
    LastLoadWins(map[], loads, id, k);
    LatestIngestionShown(map[], loads, id, k);
  }

  /**
   Loads in order show what one deduplication of all rows ever read would: the same ids, each at the
   same ingestion time.
   */
  lemma OrderedLoadsAreOneShot(s: State, one: seq<Row>)
    requires Reachable(s) && InOrder(map[], LoadsOf(s.commits))
    requires Dedup.LatestPerId(AllFrames(LoadsOf(s.commits)), one)
    ensures s.observations.Keys == Ids(one)
    ensures forall r | r in one ::
              r.eventId in s.observations && s.observations[r.eventId].row.ingestedAt == r.ingestedAt
  {
    WarehouseIsHistory(s);
    LoadsRefineOneShot(LoadsOf(s.commits), one);
  }

  /** The last load took every object of the manifest, none sharing a local name with another. */
  ghost predicate JustReplayed(s: State) {
    && s.commits != []
    && KeyFlattening.DistinctNames(s.commits[|s.commits| - 1].objects)
    && forall k | k in s.manifest :: k in s.commits[|s.commits| - 1].objects
  }

  /**
   A forced replay of everything forgets the past: whatever loads, orders and overwrites preceded it,
   the warehouse is what the replay alone would have made of an empty one, each id of the listed
   objects at the latest ingestion the replay read.
   */
  lemma ReplayForgetsThePast(s: State)
    requires Reachable(s) && JustReplayed(s)
    ensures var last := s.commits[|s.commits| - 1];
            && s.observations == Upsert(map[], last.latest, last.at)
            && (forall id :: id in s.observations <==> InListed(s.writer.objects, s.manifest, id))
            && forall x | x in last.frame ::
                 x.eventId in s.observations && x.ingestedAt <= s.observations[x.eventId].row.ingestedAt
  {
    ReachableInv(s);
    WarehouseIsHistory(s);
    var n := |s.commits| - 1;
    var last := s.commits[n];
    assert CommitInv(s.writer.objects, s.manifest, last);
    var history, replay := LoadsOf(s.commits[..n]), Load(last.frame, last.latest, last.at);
    assert LoadsOf(s.commits) == history + [replay];
    forall id | id in s.observations || InListed(s.writer.objects, s.manifest, id)
      ensures id in Ids(last.frame)
    {
      assert InListed(s.writer.objects, s.manifest, id);
      var k :| k in s.manifest && k in s.writer.objects && id in Ids(s.writer.objects[k]);
      assert InObjects(s.writer.objects, last.objects, id);
    }
    ReplayOfHistory(history, replay, s.observations);
    UpsertEffect(map[], last.latest, last.at);
  }

  lemma ReplayOfHistory(history: seq<Load>, replay: Load, table: Table)
    requires ValidLoads(history + [replay]) && table == AfterLoads(map[], history + [replay])
    requires forall id | id in table :: id in Ids(replay.frame)
    ensures table == Upsert(map[], replay.latest, replay.at)
    ensures forall x | x in replay.frame :: x.eventId in table && x.ingestedAt <= table[x.eventId].row.ingestedAt
  {
    var all := history + [replay];
    assert forall i | 0 <= i < |history| :: all[i] == history[i];
    assert all[|history|] == replay;
    AfterOneMore(history, replay);
    UpsertEffect(AfterLoads(map[], history), replay.latest, replay.at);
    ForcedReplayConverges(map[], history, replay);
  }
}
