/**
 The failure drill, for every stream instead of one: the simulator's events travel through the
 writer, whatever its crashes, and through the transform, and the counts add up.
 */
module FailureDrill {
  import opened Base
  import opened Observations
  import Dedup
  import opened Simulator
  import opened Transform
  import opened BronzeAccounting
  import B = BronzeProtocol
  import P = Pipeline

  /** The log holds exactly this stream. */
  ghost predicate Carries(produced: seq<B.Message>, events: seq<Row>) {
    |produced| == |events| && forall i | 0 <= i < |events| :: produced[i] == B.Decoded(events[i])
  }

  // ---- Counting kinds -------------------------------------------------------------------

  ghost function Genuines(kinds: seq<Kind>, n: nat): (r: set<nat>)
    requires n <= |kinds|
    ensures forall i: nat :: i in r <==> i < n && kinds[i].Genuine?
  {
    if n == 0 then {}
    else if kinds[n - 1].Genuine? then Genuines(kinds, n - 1) + {n - 1}
    else Genuines(kinds, n - 1)
  }

  ghost function Uncorrupted(kinds: seq<Kind>, n: nat): (r: set<nat>)
    requires n <= |kinds|
    ensures forall i: nat :: i in r <==> i < n && !kinds[i].Invalid?
  {
    if n == 0 then {}
    else if kinds[n - 1].Invalid? then Uncorrupted(kinds, n - 1)
    else Uncorrupted(kinds, n - 1) + {n - 1}
  }

  lemma CountsSnoc(kinds: seq<Kind>, n: nat)
    requires 0 < n <= |kinds|
    ensures Duplicates(kinds[..n]) == Duplicates(kinds[..n - 1]) + if kinds[n - 1].Duplicate? then 1 else 0
    ensures Invalids(kinds[..n]) == Invalids(kinds[..n - 1]) + if kinds[n - 1].Invalid? then 1 else 0
  {
    assert kinds[..n][..n - 1] == kinds[..n - 1];
  }

  lemma {:induction false} GenuineCount(kinds: seq<Kind>, n: nat)
    requires n <= |kinds|
    ensures |Genuines(kinds, n)| == n - Duplicates(kinds[..n]) - Invalids(kinds[..n])
  {
    if n > 0 {
      GenuineCount(kinds, n - 1);
      CountsSnoc(kinds, n);
    }
  }

  lemma {:induction false} UncorruptedCount(kinds: seq<Kind>, n: nat)
    requires n <= |kinds|
    ensures |Uncorrupted(kinds, n)| == n - Invalids(kinds[..n])
  {
    if n > 0 {
      UncorruptedCount(kinds, n - 1);
      CountsSnoc(kinds, n);
    }
  }

  lemma KindCounts(kinds: seq<Kind>)
    ensures |Genuines(kinds, |kinds|)| == |kinds| - Duplicates(kinds) - Invalids(kinds)
    ensures |Uncorrupted(kinds, |kinds|)| == |kinds| - Invalids(kinds)
  {
    GenuineCount(kinds, |kinds|);
    UncorruptedCount(kinds, |kinds|);
    assert kinds[..|kinds|] == kinds;
  }

  /** A stream from an empty history: exactly the events not made invalid meet the contract. */
  lemma AcceptedAreUncorrupted(seed: string, events: seq<Row>, kinds: seq<Kind>, produced: seq<B.Message>)
    requires Stream(seed, [], events, kinds) && Carries(produced, events)
    ensures AcceptedSerials(produced) == Uncorrupted(kinds, |kinds|)
  {
    forall i: nat | i < |events|
      ensures Contract(events[i]) <==> !kinds[i].Invalid?
    {
      assert Faithful(seed, [], events, kinds, i);
      if kinds[i].Duplicate? {
        var j: nat :| j < i && kinds[j].Genuine? && events[j] == events[i];
        assert Faithful(seed, [], events, kinds, j);
      }
    }
    forall i: nat
      ensures i in AcceptedSerials(produced) <==> i in Uncorrupted(kinds, |kinds|)
    {
      if i < |events| {
        assert produced[i] == B.Decoded(events[i]);
      }
    }
  }

  ghost function SimulatedIds(seed: string, serials: set<nat>): set<EventId> {
    set i | i in serials :: SimulatedId(seed, i)
  }

  lemma {:induction false} SimulatedIdsSize(seed: string, serials: set<nat>)
    ensures |SimulatedIds(seed, serials)| == |serials|
    decreases serials
  {
    if serials == {} {
      assert SimulatedIds(seed, serials) == {};
    } else {
      var i :| i in serials;
      var rest := serials - {i};
      SimulatedIdsSize(seed, rest);
      assert SimulatedIds(seed, serials) == SimulatedIds(seed, rest) + {SimulatedId(seed, i)};
      if SimulatedId(seed, i) in SimulatedIds(seed, rest) {
        var j :| j in rest && SimulatedId(seed, j) == SimulatedId(seed, i);
        SimulatedIdInjective(seed, i, seed, j);
        assert false;
      }
    }
  }

  /** Duplicates repeat genuine events, so the valid identities are those of the genuine ones. */
  lemma ValidIdsAreGenuine(seed: string, events: seq<Row>, kinds: seq<Kind>, produced: seq<B.Message>)
    requires Stream(seed, [], events, kinds) && Carries(produced, events)
    ensures ValidIds(produced) == SimulatedIds(seed, Genuines(kinds, |kinds|))
  {
    forall id
      ensures id in ValidIds(produced) <==> id in SimulatedIds(seed, Genuines(kinds, |kinds|))
    {
      if id in ValidIds(produced) {
        ValidIdIsGenuine(seed, events, kinds, produced, id);
      }
      if id in SimulatedIds(seed, Genuines(kinds, |kinds|)) {
        GenuineIdIsValid(seed, events, kinds, produced, id);
      }
    }
  }

  lemma ValidIdIsGenuine(seed: string, events: seq<Row>, kinds: seq<Kind>, produced: seq<B.Message>, id: EventId)
    requires Stream(seed, [], events, kinds) && Carries(produced, events) && id in ValidIds(produced)
    ensures id in SimulatedIds(seed, Genuines(kinds, |kinds|))
  {
    AcceptedAreUncorrupted(seed, events, kinds, produced);
    var n: nat :| n in AcceptedSerials(produced) && produced[n].row.eventId == id;
    assert n in Uncorrupted(kinds, |kinds|);
    assert Faithful(seed, [], events, kinds, n);
    if kinds[n].Duplicate? {
      var j: nat :| j < n && kinds[j].Genuine? && events[j] == events[n];
      assert Faithful(seed, [], events, kinds, j);
      assert j in Genuines(kinds, |kinds|);
    } else {
      assert n in Genuines(kinds, |kinds|);
    }
  }

  lemma GenuineIdIsValid(seed: string, events: seq<Row>, kinds: seq<Kind>, produced: seq<B.Message>, id: EventId)
    requires Stream(seed, [], events, kinds) && Carries(produced, events)
    requires id in SimulatedIds(seed, Genuines(kinds, |kinds|))
    ensures id in ValidIds(produced)
  {
    AcceptedAreUncorrupted(seed, events, kinds, produced);
    var i :| i in Genuines(kinds, |kinds|) && SimulatedId(seed, i) == id;
    assert Faithful(seed, [], events, kinds, i);
    assert produced[i] == B.Decoded(events[i]);
    assert i in Uncorrupted(kinds, |kinds|);
  }

  lemma StreamCounts(seed: string, events: seq<Row>, kinds: seq<Kind>, produced: seq<B.Message>)
    requires Stream(seed, [], events, kinds) && Carries(produced, events)
    ensures |AcceptedSerials(produced)| == |events| - Invalids(kinds)
    ensures |ValidIds(produced)| == |events| - Duplicates(kinds) - Invalids(kinds)
  {
    KindCounts(kinds);
    AcceptedAreUncorrupted(seed, events, kinds, produced);
    ValidIdsAreGenuine(seed, events, kinds, produced);
    SimulatedIdsSize(seed, Genuines(kinds, |kinds|));
  }

  // ---- The drill ------------------------------------------------------------------------

  /**
   Under any schedule of crashes, retries and concurrent requests: once the backlog is flushed
   and its batches are loaded, the dead-letter topic has received exactly the invalid events and
   the warehouse holds one row per genuine event.
   */
  lemma DrillUnderCrashes(s: P.State, seed: string, events: seq<Row>, kinds: seq<Kind>)
    requires P.Reachable(s) && Drained(s.writer) && P.AllBatchesListed(s) && P.OnlyBatchesListed(s)
    requires Stream(seed, [], events, kinds) && Carries(s.writer.produced, events)
    ensures |s.writer.dlq| == Invalids(kinds)
    ensures |s.observations| == |events| - Duplicates(kinds) - Invalids(kinds)
  {
    StreamCounts(seed, events, kinds, s.writer.produced);
    P.WriterReachable(s);
    DrainedDeadLetters(s.writer);
    forall id
      ensures id in s.observations <==> id in ValidIds(s.writer.produced)
    {
      P.LogReachesWarehouse(s, id);
    }
    assert s.observations.Keys == ValidIds(s.writer.produced);
  }

  ghost predicate WriterNeverRestarts(steps: seq<P.Step>) {
    forall i | 0 <= i < |steps| && steps[i].WriterStep? :: !steps[i].step.Restart?
  }

  /** The steps the writer takes in a run of the pipeline. */
  ghost function WriterSteps(steps: seq<P.Step>): seq<B.Step> {
    if steps == [] then []
    else (if steps[0].WriterStep? then [steps[0].step] else []) + WriterSteps(steps[1..])
  }

  lemma {:induction false} WriterProjection(s: P.State, steps: seq<P.Step>, end: P.State)
    requires P.Behaviour(s, steps, end) && WriterNeverRestarts(steps)
    ensures B.Behaviour(s.writer, WriterSteps(steps), end.writer)
    ensures NeverRestarts(WriterSteps(steps))
    decreases |steps|
  {
    if steps != [] {
      WriterProjection(P.Next(s, steps[0]), steps[1..], end);
      if steps[0].WriterStep? {
        assert WriterSteps(steps)[1..] == WriterSteps(steps[1..]);
      } else {
        assert WriterSteps(steps) == WriterSteps(steps[1..]);
      }
    }
  }

  lemma RowTotalWithout(objects: map<string, seq<Row>>, keys: seq<string>, i: nat)
    requires i < |keys| && forall k | k in keys :: k in objects
    ensures RowTotal(objects, keys) == RowTotal(objects, keys[..i] + keys[i + 1..]) + |objects[keys[i]]|
    decreases |keys|
  {
    var last := |keys| - 1;
    assert keys[last] in keys;
    if i == last {
      assert keys[..i] + keys[i + 1..] == keys[..last];
    } else {
      RowTotalWithout(objects, keys[..last], i);
      assert keys[..last][..i] + keys[..last][i + 1..] == keys[..i] + keys[i + 1..last];
      var without := keys[..i] + keys[i + 1..];
      assert without[..|without| - 1] == keys[..i] + keys[i + 1..last];
      assert without[|without| - 1] == keys[last];
    }
  }

  /** The same objects in another order hold the same number of rows. */
  lemma {:induction false} RowTotalOrder(objects: map<string, seq<Row>>, a: seq<string>, b: seq<string>)
    requires NoDup(a) && NoDup(b) && (forall k :: k in a <==> k in b)
    requires forall k | k in a :: k in objects
    ensures RowTotal(objects, a) == RowTotal(objects, b)
    decreases |a|
  {
    NoDupLength(a);
    NoDupLength(b);
    assert Elements(a) == Elements(b);
    if a != [] {
      var last := a[|a| - 1];
      assert last in a;
      var i :| 0 <= i < |b| && b[i] == last;
      var n := |a| - 1;
      var a', b' := a[..n], b[..i] + b[i + 1..];
      Without(a, n);
      Without(b, i);
      assert a[..n] + a[n + 1..] == a';
      forall k
        ensures k in a' <==> k in b'
      {
        assert k in a[..n] + a[n + 1..] <==> k in a && k != last;
      }
      RowTotalWithout(objects, b, i);
      RowTotalOrder(objects, a', b');
    }
  }

  lemma Without(s: seq<string>, i: nat)
    requires NoDup(s) && i < |s|
    ensures NoDup(s[..i] + s[i + 1..])
    ensures forall k :: k in s[..i] + s[i + 1..] <==> k in s && k != s[i]
  {
    var rest := s[..i] + s[i + 1..];
    forall k | k in s && k != s[i]
      ensures k in rest
    {
      var j :| 0 <= j < |s| && s[j] == k;
      assert j < i ==> rest[j] == k;
      assert j > i ==> rest[j - 1] == k;
    }
  }

  lemma {:induction false} ContentsTotal(objects: map<string, seq<Row>>, keys: seq<string>)
    requires forall k | k in keys :: k in objects
    ensures |Contents(objects, keys)| == RowTotal(objects, keys)
  {
    if keys != [] {
      assert keys[|keys| - 1] in keys;
      ContentsTotal(objects, keys[..|keys| - 1]);
    }
  }

  // ---- Late rows --------------------------------------------------------------------------

  /** The genuine events made late; late events made invalid never get that far. */
  ghost function LateGenuines(kinds: seq<Kind>): (r: set<nat>)
    ensures forall i: nat :: i in r <==> i < |kinds| && kinds[i].Genuine? && kinds[i].late
  {
    set i: nat | i in Below(|kinds|) && kinds[i].Genuine? && kinds[i].late
  }

  /** Every accepted row of the log is a genuine event of the stream. */
  lemma GenuineOrigin(seed: string, events: seq<Row>, kinds: seq<Kind>, w: B.Writer, x: Row) returns (j: nat)
    requires Stream(seed, [], events, kinds) && Carries(w.produced, events) && B.ProducedRow(w, x)
    ensures j < |events| && kinds[j].Genuine? && events[j] == x
  {
    var n: nat :| n < |w.produced| && B.Accepted(w.produced[n]) && w.produced[n].row == x;
    assert Faithful(seed, [], events, kinds, n);
    if kinds[n].Duplicate? {
      var i: nat :| i < n && kinds[i].Genuine? && events[i] == events[n];
      j := i;
    } else {
      j := n;
    }
  }

  /** The late ids among rows that are genuine events, one for each genuine event. */
  lemma LateIdsAreLateGenuines(seed: string, events: seq<Row>, kinds: seq<Kind>, w: B.Writer, latest: seq<Row>)
    requires Stream(seed, [], events, kinds) && Carries(w.produced, events)
    requires forall r | r in latest :: B.ProducedRow(w, r)
    requires Ids(latest) == SimulatedIds(seed, Genuines(kinds, |kinds|))
    ensures LateIds(latest) == SimulatedIds(seed, LateGenuines(kinds))
  {
    forall r | r in latest
      ensures IsLate(r) <==> r.eventId in SimulatedIds(seed, LateGenuines(kinds))
    {
      var j := GenuineOrigin(seed, events, kinds, w, r);
      assert Faithful(seed, [], events, kinds, j);
      if r.eventId in SimulatedIds(seed, LateGenuines(kinds)) {
        var i :| i in LateGenuines(kinds) && SimulatedId(seed, i) == r.eventId;
        SimulatedIdInjective(seed, i, seed, j);
      }
      assert IsLate(r) ==> j in LateGenuines(kinds);
    }
    forall id | id in SimulatedIds(seed, LateGenuines(kinds))
      ensures id in LateIds(latest)
    {
      var i :| i in LateGenuines(kinds) && SimulatedId(seed, i) == id;
      assert i in Genuines(kinds, |kinds|) && id in Ids(latest);
      var r :| r in latest && r.eventId == id;
    }
  }

  lemma FrameIsProduced(s: P.State, c: P.Commit, r: Row)
    requires P.Inv(s) && P.CommitInv(s.writer.objects, s.manifest, c) && P.AllBatches(c.objects) && r in c.latest
    ensures B.ProducedRow(s.writer, r)
  {
    assert r in c.frame;
    ContentsRows(s.writer.objects, c.objects, r);
    var k :| k in c.objects && r in s.writer.objects[k];
    assert B.IsBatchKey(k);
  }

  // ---- Without a crash --------------------------------------------------------------------

  /** What a load of all the batches took. */
  ghost predicate TookTheBatches(s: P.State, c: P.Commit) {
    forall k :: k in c.objects <==> k in s.writer.objects && B.IsBatchKey(k)
  }

  lemma FrameIdsAreGenuine(s: P.State, c: P.Commit, seed: string, events: seq<Row>, kinds: seq<Kind>)
    requires P.Reachable(s) && Drained(s.writer) && c in s.commits && TookTheBatches(s, c)
    requires Stream(seed, [], events, kinds) && Carries(s.writer.produced, events)
    ensures Ids(c.frame) == SimulatedIds(seed, Genuines(kinds, |kinds|))
  {
    P.WriterReachable(s);
    forall id
      ensures id in Ids(c.frame) <==> id in ValidIds(s.writer.produced)
    {
      FrameHolds(s, c, id);
      BatchesHoldValidIds(s, c, id);
    }
    ValidIdsAreGenuine(seed, events, kinds, s.writer.produced);
  }

  lemma FrameHolds(s: P.State, c: P.Commit, id: EventId)
    requires P.Reachable(s) && c in s.commits && P.AllBatches(c.objects)
    ensures id in Ids(c.frame) <==> P.InObjects(s.writer.objects, c.objects, id)
  {
    P.ReachableInv(s);
    assert P.CommitInv(s.writer.objects, s.manifest, c);
    P.BatchesApart(c.objects);
  }

  lemma BatchesHoldValidIds(s: P.State, c: P.Commit, id: EventId)
    requires B.Reachable(s.writer) && Drained(s.writer) && TookTheBatches(s, c)
    ensures P.InObjects(s.writer.objects, c.objects, id) <==> id in ValidIds(s.writer.produced)
  {
    if P.InObjects(s.writer.objects, c.objects, id) {
      var k :| k in c.objects && k in s.writer.objects && id in Ids(s.writer.objects[k]);
      assert InBatches(s.writer, id);
      BatchIdsAreValid(s.writer, id);
    }
    if id in ValidIds(s.writer.produced) {
      DrainedBatchIds(s.writer, id);
      var k :| k in s.writer.objects && B.IsBatchKey(k) && id in Ids(s.writer.objects[k]);
      assert k in c.objects;
    }
  }

  lemma FrameSize(w: P.State, steps: seq<P.Step>, s: P.State, c: P.Commit)
    requires P.Init(w) && P.Behaviour(w, steps, s) && WriterNeverRestarts(steps)
    requires Drained(s.writer) && c in s.commits && TookTheBatches(s, c)
    ensures |c.frame| == |AcceptedSerials(s.writer.produced)|
  {
    CommitFacts(w, steps, s, c);
    WriterProjection(w, steps, s);
    NoRestartShipsOnce(w.writer, WriterSteps(steps), s.writer);
    assert P.AllBatches(c.objects);
    ContentsTotal(s.writer.objects, c.objects);
    assert forall k :: k in c.objects <==> k in s.writer.keys;
    RowTotalOrder(s.writer.objects, c.objects, s.writer.keys);
  }

  /** Whatever the crashes, a load of all batches keeps the genuine events, the late ones among them. */
  lemma KeptAndLate(s: P.State, c: P.Commit, seed: string, events: seq<Row>, kinds: seq<Kind>)
    requires P.Reachable(s) && Drained(s.writer) && c in s.commits && TookTheBatches(s, c)
    requires Stream(seed, [], events, kinds) && Carries(s.writer.produced, events)
    ensures |c.latest| == |events| - Duplicates(kinds) - Invalids(kinds)
    ensures LateCount(c.latest) == |LateGenuines(kinds)|
  {
    P.ReachableInv(s);
    assert P.CommitInv(s.writer.objects, s.manifest, c);
    FrameIdsAreGenuine(s, c, seed, events, kinds);
    Dedup.LatestPerIdCount(c.frame, c.latest);
    SimulatedIdsSize(seed, Genuines(kinds, |kinds|));
    KindCounts(kinds);
    forall r | r in c.latest
      ensures B.ProducedRow(s.writer, r)
    {
      FrameIsProduced(s, c, r);
    }
    LateIdsAreLateGenuines(seed, events, kinds, s.writer, c.latest);
    SimulatedIdsSize(seed, LateGenuines(kinds));
    LateCountIsIds(c.latest);
  }

  /**
   Without a crash of the writer, a single transform that takes all the batches reads every
   event but the invalid ones, removes exactly the injected duplicates, keeps the rest, and counts
   as late exactly the genuine events made late.
   */
  lemma DrillWithoutCrash(w: P.State, steps: seq<P.Step>, s: P.State, c: P.Commit,
                          seed: string, events: seq<Row>, kinds: seq<Kind>)
    requires P.Init(w) && P.Behaviour(w, steps, s) && WriterNeverRestarts(steps)
    requires Drained(s.writer) && c in s.commits && TookTheBatches(s, c)
    requires Stream(seed, [], events, kinds) && Carries(s.writer.produced, events)
    ensures |c.frame| == |events| - Invalids(kinds)
    ensures |c.latest| == |events| - Duplicates(kinds) - Invalids(kinds)
    ensures |c.frame| - |c.latest| == Duplicates(kinds)
    ensures LateCount(c.latest) == |LateGenuines(kinds)|
  {
    assert P.Reachable(s);
    StreamCounts(seed, events, kinds, s.writer.produced);
    FrameSize(w, steps, s, c);
    KeptAndLate(s, c, seed, events, kinds);
  }

  lemma CommitFacts(w: P.State, steps: seq<P.Step>, s: P.State, c: P.Commit)
    requires P.Init(w) && P.Behaviour(w, steps, s) && c in s.commits
    ensures P.CommitInv(s.writer.objects, s.manifest, c)
  {
    assert P.Reachable(s);
    P.ReachableInv(s);
  }
}
