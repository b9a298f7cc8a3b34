/**
 Why the exactly-once effect speaks of local names: two objects whose keys flatten alike overwrite
 each other on their way into one load, and the manifest still lists both.
 */
module NameClash {
  import opened Base
  import opened Observations
  import Clock
  import opened KeyFlattening
  import Dedup
  import Warehouse
  import Transform
  import opened Pipeline
  import B = BronzeProtocol

  /** Two keys a request for this prefix takes, which share a local file. */
  ghost predicate Clash(prefix: string, first: string, second: string) {
    && first != second && Flatten(first) == Flatten(second)
    && prefix <= first && prefix <= second
  }

  lemma Extend(s: State, step: Step) returns (t: State)
    requires Reachable(s) && Enabled(s, step)
    ensures t == Next(s, step) && Reachable(t)
  {
    t := Next(s, step);
    ReachableNext(s, step);
  }

  const TOPIC := B.Partition("traffic", 0)

  /** Nothing stored or loaded, no job inside. */
  ghost predicate Untouched(s: State) {
    s.observations == map[] && s.manifest == map[] && s.commits == [] && s.jobs == map[] && !s.locked
  }

  /** The writer has polled n messages, none of which it could read. */
  ghost predicate Skipped(s: State, n: nat) {
    && Reachable(s) && Untouched(s)
    && s.writer.objects == map[] && s.writer.instants == {} && s.writer.records == [] && s.writer.phase.Buffering?
    && |B.Entries(s.writer.log, TOPIC)| == n == B.At(s.writer.position, TOPIC)
    && s.writer.pending == if n == 0 then map[] else map[TOPIC := n]
  }

  lemma IsSane(s: State)
    requires Reachable(s)
    ensures B.Sane(s.writer)
  {
    ReachableInv(s);
  }

  lemma Arrives(w: B.Writer, n: nat, message: B.Message)
    requires B.Sane(w) && |B.Entries(w.log, TOPIC)| == n
    ensures var t := B.Next(w, B.Produce(TOPIC, message));
            && B.Entries(t.log, TOPIC)[..n] == B.Entries(w.log, TOPIC)
            && |B.Entries(t.log, TOPIC)| == n + 1 && B.Entries(t.log, TOPIC)[n] == |w.produced|
            && t.produced == w.produced + [message]
            && t == w.(produced := t.produced, log := t.log)
  {
  }

  lemma Polls(w: B.Writer, n: nat, message: B.Message)
    requires B.Sane(w) && B.At(w.position, TOPIC) == n && w.phase.Buffering?
    requires n < |B.Entries(w.log, TOPIC)| && w.produced[B.Entries(w.log, TOPIC)[n]] == message
    requires w.pending == (if n == 0 then map[] else map[TOPIC := n])
    ensures var t := B.Next(w, B.Poll(TOPIC));
            && t.records == w.records + (if B.Accepted(message) then [message.row] else [])
            && t.pending == map[TOPIC := n + 1] && B.At(t.position, TOPIC) == n + 1
            && t.phase.Buffering? && t.log == w.log && t.objects == w.objects && t.instants == w.instants
  {
  }

  /** One more message arrives and is polled. */
  lemma TakeMessage(s0: State, n: nat, message: B.Message) returns (s: State)
    requires Skipped(s0, n)
    ensures Reachable(s) && Untouched(s) && s.writer.objects == map[] && s.writer.instants == {}
    ensures s.writer.phase.Buffering? && s.writer.pending == map[TOPIC := n + 1]
    ensures |B.Entries(s.writer.log, TOPIC)| == n + 1 == B.At(s.writer.position, TOPIC)
    ensures s.writer.records == if B.Accepted(message) then [message.row] else []
  {
    IsSane(s0);
    Arrives(s0.writer, n, message);
    s := Extend(s0, WriterStep(B.Produce(TOPIC, message)));
    IsSane(s);
    Polls(s.writer, n, message);
    s := Extend(s, WriterStep(B.Poll(TOPIC)));
  }

  lemma {:induction false} SkipMessages(n: nat) returns (s: State)
    ensures Skipped(s, n)
  {
    if n == 0 {
      var w := B.Writer([], map[], map[], {}, map[], map[], [], map[], B.Buffering, [], map[], [], [], {});
      s := State(w, map[], map[], false, map[], []);
      assert Init(s) && Behaviour(s, [], s);
    } else {
      s := SkipMessages(n - 1);
      s := TakeMessage(s, n - 1, B.Undecodable);
    }
  }

  /** Any key the writer can build, and any row it accepts: a bucket with just that batch. */
  lemma BatchStored(key: string, row: Row) returns (s: State)
    requires B.IsBatchKey(key) && Contract(row)
    ensures Reachable(s) && Untouched(s) && s.writer.objects == map[key := [row]]
  {
    var now, first :| Clock.Valid(now) && key == B.BatchKey(now, first);
    s := SkipMessages(first);
    s := TakeMessage(s, first, B.Decoded(row));
    assert TOPIC in s.writer.pending;
    IsSane(s);
    s := Extend(s, WriterStep(B.Upload(now, first)));
  }

  lemma NothingStored() returns (s: State)
    ensures Reachable(s) && Untouched(s) && s.writer.objects == map[]
  {
    s := SkipMessages(0);
  }

  lemma NotApart(first: string, second: string)
    requires first != second && Flatten(first) == Flatten(second)
    ensures !DistinctNames([first, second])
  {
    var keys := [first, second];
    assert keys[0] in keys && keys[1] in keys;
  }

  /** Of two keys that share a local file at most one is a batch's. */
  lemma OneBatchAtMost(first: string, second: string)
    requires first != second && Flatten(first) == Flatten(second)
    ensures !(B.IsBatchKey(first) && B.IsBatchKey(second))
  {
    if B.IsBatchKey(first) && B.IsBatchKey(second) {
      assert B.IsBatchKey([first, second][0]) && B.IsBatchKey([first, second][1]);
      BatchesApart([first, second]);
      NotApart(first, second);
    }
  }

  lemma AnotherStored(s0: State, key: string, row: Row) returns (s: State)
    requires Reachable(s0) && Untouched(s0) && !B.IsBatchKey(key)
    ensures Reachable(s) && Untouched(s) && s.writer.objects == s0.writer.objects[key := [row]]
  {
    IsSane(s0);
    s := Extend(s0, WriterStep(B.Put(key, [row])));
  }

  /** A bucket with one row under each of the two keys. */
  lemma BothStored(first: string, second: string, lost: Row, kept: Row) returns (s: State)
    requires first != second && Flatten(first) == Flatten(second)
    requires (B.IsBatchKey(first) ==> Contract(lost)) && (B.IsBatchKey(second) ==> Contract(kept))
    ensures Reachable(s) && Untouched(s)
    ensures s.writer.objects == map[first := [lost]][second := [kept]]
  {
    OneBatchAtMost(first, second);
    if B.IsBatchKey(second) {
      s := BatchStored(second, kept);
      s := AnotherStored(s, first, lost);
      assert map[second := [kept]][first := [lost]] == map[first := [lost]][second := [kept]];
    } else {
      if B.IsBatchKey(first) {
        s := BatchStored(first, lost);
      } else {
        s := NothingStored();
        s := AnotherStored(s, first, lost);
      }
      s := AnotherStored(s, second, kept);
    }
  }

  lemma BothListed(prefix: string, first: string, second: string, objects: map<string, seq<Row>>)
    requires Clash(prefix, first, second) && objects.Keys == {first, second}
    ensures IsListing(objects, prefix, [first, second])
    ensures Transform.Unprocessed([first, second], {}) == [first, second]
  {
    var all := [first, second];
    assert all[..1] == [first] && [first][..0] == [];
    assert Transform.Unprocessed([first], {}) == [first];
  }

  /** A job takes both. */
  lemma BothTaken(s0: State, prefix: string, first: string, second: string) returns (s: State)
    requires Reachable(s0) && s0.jobs == map[] && !s0.locked && s0.manifest == map[]
    requires Clash(prefix, first, second) && s0.writer.objects.Keys == {first, second}
    ensures Reachable(s)
    ensures s == s0.(locked := true, jobs := map[0 := Job(prefix, false, Working([first, second], map[]))])
  {
    BothListed(prefix, first, second, s0.writer.objects);
    s := Extend(s0, Request(0, prefix, false));
    s := Extend(s, List(0, [first, second]));
    assert s.manifest.Keys == {};
    s := Extend(s, Filter(0));
  }

  lemma ReadTwice(first: string, second: string, kept: Row)
    requires Flatten(first) == Flatten(second)
    ensures Transform.AllFetched([first, second], map[Flatten(second) := [kept]])
    ensures Transform.Frame([first, second], map[Flatten(second) := [kept]]) == [kept, kept]
    ensures Dedup.LatestPerId([kept, kept], [kept])
  {
    var files := map[Flatten(second) := [kept]];
    var keys := [first, second];
    assert keys[..1] == [first] && [first][..0] == [];
    assert Transform.Frame([first], files) == [kept];
    assert kept in [kept] && kept in [kept, kept];
  }

  /** The file of the second object replaces that of the first. */
  lemma FileReplaced(s0: State, prefix: string, first: string, second: string, lost: Row, kept: Row) returns (s: State)
    requires Reachable(s0) && Flatten(first) == Flatten(second) && first != second
    requires s0.writer.objects == map[first := [lost]][second := [kept]]
    requires s0.jobs == map[0 := Job(prefix, false, Working([first, second], map[]))]
    ensures Reachable(s)
    ensures s == s0.(jobs := map[0 := Job(prefix, false, Working([first, second], map[Flatten(second) := [kept]]))])
  {
    s := Extend(s0, Fetch(0, first));
    s := Extend(s, Fetch(0, second));
    var files: Transform.Files := map[];
    assert files[Flatten(first) := [lost]][Flatten(second) := [kept]] == map[Flatten(second) := [kept]];
  }

  lemma LoadOpened(s0: State, prefix: string, first: string, second: string, kept: Row) returns (s: State)
    requires Reachable(s0) && Flatten(first) == Flatten(second)
    requires s0.jobs == map[0 := Job(prefix, false, Working([first, second], map[Flatten(second) := [kept]]))]
    ensures Reachable(s)
    ensures s == s0.(jobs := map[0 := Job(prefix, false, Loading([first, second], map[Flatten(second) := [kept]], 1))])
  {
    s := Extend(s0, BeginLoad(0, 1));
  }

  lemma LastFileReadTwice(s0: State, prefix: string, first: string, second: string, kept: Row) returns (s: State)
    requires Reachable(s0) && Checks(kept) && Flatten(first) == Flatten(second)
    requires s0.jobs == map[0 := Job(prefix, false, Loading([first, second], map[Flatten(second) := [kept]], 1))]
    requires s0.observations == map[] && s0.manifest == map[] && s0.commits == []
    ensures Reachable(s) && s.writer == s0.writer
    ensures s.observations.Keys == {kept.eventId} && s.manifest.Keys == {first, second}
    ensures |s.commits| == 1 && s.commits[0].objects == [first, second]
  {
    var load := CommitLoad(0, [kept], map[], "run");
    MayCommit(s0, prefix, first, second, kept);
    s := Extend(s0, load);
    LoadedKeys(s0, load);
    CommittedOne(s0, load);
    KeptOnly(kept, s.observations);
    assert Elements([first, second]) == {first, second};
  }

  lemma MayCommit(s: State, prefix: string, first: string, second: string, kept: Row)
    requires Checks(kept) && Flatten(first) == Flatten(second)
    requires s.jobs == map[0 := Job(prefix, false, Loading([first, second], map[Flatten(second) := [kept]], 1))]
    ensures Enabled(s, CommitLoad(0, [kept], map[], "run"))
  {
    ReadTwice(first, second, kept);
  }

  lemma CommittedOne(s: State, step: Step)
    requires Enabled(s, step) && step.CommitLoad? && s.commits == []
    ensures Next(s, step).writer == s.writer && |Next(s, step).commits| == 1
    ensures Next(s, step).observations == Warehouse.Upsert(s.observations, step.latest, s.jobs[step.job].stage.start)
    ensures Next(s, step).commits[0].objects == s.jobs[step.job].stage.objects
  {
  }

  lemma KeptOnly(kept: Row, after: Warehouse.Table)
    requires after == Warehouse.Upsert(map[], [kept], 1)
    ensures after.Keys == {kept.eventId}
  {
    assert [kept][..0] == [];
  }

  /**
   For any two keys that clash, a batch's or not, there is a run after which the manifest lists an
   object whose event never reached the warehouse: what was downloaded last was read twice. So the
   condition on local names in the exactly-once effect cannot be dropped. Batches hold contract rows.
   */
  lemma NameClashLosesAnObject(prefix: string, first: string, second: string, lost: Row, kept: Row) returns (s: State)
    requires Clash(prefix, first, second) && lost.eventId != kept.eventId && Checks(kept)
    requires (B.IsBatchKey(first) ==> Contract(lost)) && (B.IsBatchKey(second) ==> Contract(kept))
    ensures Reachable(s)
    ensures InListed(s.writer.objects, s.manifest, lost.eventId) && lost.eventId !in s.observations
    ensures !NamesApart(s.commits)
  {
    s := BothStored(first, second, lost, kept);
    s := BothTaken(s, prefix, first, second);
    s := FileReplaced(s, prefix, first, second, lost, kept);
    s := LoadOpened(s, prefix, first, second, kept);
    s := LastFileReadTwice(s, prefix, first, second, kept);
    assert first in s.manifest && lost in s.writer.objects[first];
    assert first in s.commits[0].objects && second in s.commits[0].objects;
  }

  /** Two concrete keys that clash. */
  lemma ClashingKeys()
    ensures Clash("a", "a_/b", "a/_b")
  {
    FlattenCollision();
  }

  /** A key that clashes with a batch's. */
  lemma BatchCanClash(key: string)
    requires B.IsBatchKey(key)
    ensures Clash("bronze", key, "bronze__" + key[7..])
  {
    B.OtherPrefix(key);
    BatchHead(key);
    Underscored(key[7..]);
    SlashOrUnderscores("bronze", key[7..]);
  }

  lemma BatchHead(key: string)
    requires B.BATCH_PREFIX <= key
    ensures |key| >= 7 && key == "bronze" + ("/" + key[7..])
  {
    assert B.BATCH_PREFIX[..7] == "bronze/";
    assert key == key[..7] + key[7..] && key[..7] == "bronze/" == "bronze" + "/";
    ConcatAssociative("bronze", "/", key[7..]);
  }

  lemma Underscored(rest: string)
    ensures "bronze__" + rest == "bronze" + ("__" + rest)
    ensures "bronze__" + rest != "bronze" + ("/" + rest)
  {
    assert "bronze__" == "bronze" + "__";
    ConcatAssociative("bronze", "__", rest);
    assert |"bronze__" + rest| == |"bronze" + ("/" + rest)| + 1;
  }
}
