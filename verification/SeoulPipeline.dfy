/**
 Syncs beside the Kafka writer: what a sync stores in bronze is always a step the pipeline protocol
 allows, so every result about that protocol holds with syncs running at any moment. Payloads and
 rejects go to other prefixes, which no request for bronze objects lists.
 */
module SeoulPipeline {
  import opened Observations
  import Clock
  import opened SeoulIdentity
  import opened SeoulSync
  import B = BronzeProtocol
  import P = Pipeline

  /** What the syncs of a run have in common; `seen` are the payloads they retrieve. */
  datatype Source = Source(seen: set<Payload>, parse: Parse, digest: Payload -> string)

  /** Some sync of these payloads stores these rows under this key. */
  ghost predicate SyncStores(c: Source, key: string, rows: seq<Row>) {
    exists q, asked, u :: Stores(c, key, rows, q, asked, u)
  }

  ghost predicate Stores(c: Source, key: string, rows: seq<Row>, q: Payload, asked: string, u: Clock.Utc) {
    && q in c.seen && Clock.Valid(u) && Clock.Valid(Clock.Snapshot(u)) && |c.digest(q)| == 64
    && key == SnapshotKey(AreaCode(q), Clock.Snapshot(u), c.digest(q))
    && rows == SyncRows(q, asked, u, c.parse) && rows != []
  }

  /** Among the payloads seen, the digest prefix in a key tells the payload. */
  ghost predicate CollisionFree(c: Source) {
    forall p, q | p in c.seen && q in c.seen && |c.digest(p)| == |c.digest(q)| == 64 :: SamePrefix(c, p, q) ==> p == q
  }

  predicate SamePrefix(c: Source, p: Payload, q: Payload)
    requires |c.digest(p)| == |c.digest(q)| == 64
  {
    c.digest(p)[..12] == c.digest(q)[..12]
  }

  /** Under the Seoul prefix, only syncs store. */
  ghost predicate OnlySyncs(steps: seq<P.Step>, c: Source) {
    forall i | 0 <= i < |steps| && steps[i].WriterStep? && steps[i].step.Put? && SEOUL_PREFIX <= steps[i].step.key ::
      SyncStores(c, steps[i].step.key, steps[i].step.rows)
  }

  ghost predicate SyncsOnly(objects: map<string, seq<Row>>, c: Source) {
    forall k | k in objects && SEOUL_PREFIX <= k :: SyncStores(c, k, objects[k])
  }

  lemma NoBatch(key: string)
    requires SEOUL_PREFIX <= key
    ensures !B.IsBatchKey(key)
  {
    B.OtherPrefix(key);
    assert key[7] == SEOUL_PREFIX[7] == 's' && B.BATCH_PREFIX[7] == 't';
  }

  lemma StepKeepsSyncs(s: P.State, step: P.Step, c: Source)
    requires P.Inv(s) && P.Enabled(s, step) && SyncsOnly(s.writer.objects, c)
    requires step.WriterStep? && step.step.Put? && SEOUL_PREFIX <= step.step.key ==>
               SyncStores(c, step.step.key, step.step.rows)
    ensures SyncsOnly(P.Next(s, step).writer.objects, c)
  {
    if step.WriterStep? {
      var t := P.Next(s, step);
      forall k | k in t.writer.objects && SEOUL_PREFIX <= k
        ensures SyncStores(c, k, t.writer.objects[k])
      {
        B.StepStores(s.writer, step.step, k);
        NoBatch(k);
      }
    } else {
      assert P.Next(s, step).writer == s.writer;
    }
  }

  lemma {:induction false} RunKeepsSyncs(s: P.State, steps: seq<P.Step>, end: P.State, c: Source)
    requires P.Inv(s) && P.Behaviour(s, steps, end) && OnlySyncs(steps, c)
    requires SyncsOnly(s.writer.objects, c)
    ensures P.Inv(end) && SyncsOnly(end.writer.objects, c)
    decreases |steps|
  {
    if steps != [] {
      StepKeepsSyncs(s, steps[0], c);
      P.StepKeepsInv(s, steps[0]);
      RunKeepsSyncs(P.Next(s, steps[0]), steps[1..], end, c);
    }
  }

  lemma SameStoredIds(c: Source, key: string, rows: seq<Row>, others: seq<Row>)
    requires CollisionFree(c) && SyncStores(c, key, rows) && SyncStores(c, key, others)
    ensures Ids(rows) == Ids(others)
  {
    var p, requested, t :| Stores(c, key, rows, p, requested, t);
    var q, asked, u :| Stores(c, key, others, q, asked, u);
    assert SamePrefix(c, p, q) ==> p == q;
    SafeOverwrite(p, requested, t, q, asked, u, c.parse, c.digest);
  }

  /** The next store is allowed: a sync that stored under this key before stored the same identities. */
  lemma StoreAllowed(s: P.State, key: string, rows: seq<Row>, c: Source)
    requires P.Inv(s) && SyncsOnly(s.writer.objects, c) && CollisionFree(c)
    requires SEOUL_PREFIX <= key && SyncStores(c, key, rows)
    ensures P.Enabled(s, P.WriterStep(B.Put(key, rows)))
    ensures key in s.writer.objects ==> Ids(rows) == Ids(s.writer.objects[key])
  {
    NoBatch(key);
    if key in s.writer.objects {
      SameStoredIds(c, key, rows, s.writer.objects[key]);
    }
  }

  /**
   In every run in which only syncs store under the Seoul prefix, the next sync may store its rows at
   any moment: whether or not its key was processed before, no identity is hidden or lost by it.
   */
  lemma SyncsAreAlwaysAllowed(w: P.State, steps: seq<P.Step>, s: P.State, c: Source,
                              key: string, rows: seq<Row>)
    requires P.Init(w) && P.Behaviour(w, steps, s) && OnlySyncs(steps, c)
    requires CollisionFree(c) && SyncStores(c, key, rows)
    ensures P.Enabled(s, P.WriterStep(B.Put(key, rows)))
    ensures key in s.writer.objects ==> Ids(rows) == Ids(s.writer.objects[key])
  {
    P.InitInv(w);
    RunKeepsSyncs(w, steps, s, c);
    StoreAllowed(s, key, rows, c);
  }

  // ---- The method as steps ----------------------------------------------------------------

  /** The accepted rows in a lake, by key. */
  function BronzePart(lake: map<string, LakeObject>): map<string, seq<Row>> {
    map k | k in lake && SEOUL_PREFIX <= k && lake[k].BronzeRows? :: lake[k].rows
  }

  function SeoulPart(objects: map<string, seq<Row>>): map<string, seq<Row>> {
    map k | k in objects && SEOUL_PREFIX <= k :: objects[k]
  }

  lemma SeoulPartPut(objects: map<string, seq<Row>>, key: string, rows: seq<Row>)
    requires SEOUL_PREFIX <= key
    ensures SeoulPart(objects[key := rows]) == SeoulPart(objects)[key := rows]
  {
  }

  lemma BronzePartPut(lake: map<string, LakeObject>, key: string, content: LakeObject)
    ensures BronzePart(lake[key := content])
            == if SEOUL_PREFIX <= key && content.BronzeRows? then BronzePart(lake)[key := content.rows]
               else if SEOUL_PREFIX <= key then BronzePart(lake) - {key} else BronzePart(lake)
  {
  }

  /** The upload is accepted rows as a sync stores them, or goes elsewhere. */
  ghost predicate SyncUpload(c: Source, upload: (string, LakeObject)) {
    if upload.1.BronzeRows? then SEOUL_PREFIX <= upload.0 && SyncStores(c, upload.0, upload.1.rows)
    else !(SEOUL_PREFIX <= upload.0)
  }

  /** The bucket of the pipeline holds the lake's accepted rows, and under their prefix nothing else. */
  ghost predicate Mirrors(s: P.State, lake: map<string, LakeObject>, c: Source) {
    P.Inv(s) && SyncsOnly(s.writer.objects, c) && SeoulPart(s.writer.objects) == BronzePart(lake)
  }

  lemma UploadIsAStep(s: P.State, lake: map<string, LakeObject>, upload: (string, LakeObject), c: Source)
    returns (t: P.State)
    requires Mirrors(s, lake, c) && CollisionFree(c) && SyncUpload(c, upload)
    ensures P.Reaches(s, t) && Mirrors(t, lake[upload.0 := upload.1], c)
  {
    BronzePartPut(lake, upload.0, upload.1);
    if upload.1.BronzeRows? {
      var key, rows := upload.0, upload.1.rows;
      t := StoreIsAStep(s, key, rows, c);
    } else {
      P.ReachesItself(s);
      t := s;
    }
  }

  lemma StoreIsAStep(s: P.State, key: string, rows: seq<Row>, c: Source) returns (t: P.State)
    requires P.Inv(s) && SyncsOnly(s.writer.objects, c) && CollisionFree(c)
    requires SEOUL_PREFIX <= key && SyncStores(c, key, rows)
    ensures P.Reaches(s, t) && P.Inv(t) && SyncsOnly(t.writer.objects, c)
    ensures SeoulPart(t.writer.objects) == SeoulPart(s.writer.objects)[key := rows]
  {
    StoreAllowed(s, key, rows, c);
    var put := P.WriterStep(B.Put(key, rows));
    P.ReachesNext(s, put);
    P.StepKeepsInv(s, put);
    StepKeepsSyncs(s, put, c);
    SeoulPartPut(s.writer.objects, key, rows);
    t := P.Next(s, put);
  }

  lemma {:induction false} UploadsAreSteps(s: P.State, lake: map<string, LakeObject>,
                                           uploads: seq<(string, LakeObject)>,
                                           c: Source) returns (t: P.State)
    requires Mirrors(s, lake, c) && CollisionFree(c) && forall u | u in uploads :: SyncUpload(c, u)
    ensures P.Reaches(s, t) && Mirrors(t, Applied(lake, uploads), c)
  {
    if uploads == [] {
      P.ReachesItself(s);
      t := s;
    } else {
      var init, last := uploads[..|uploads| - 1], uploads[|uploads| - 1];
      assert last in uploads;
      var here := UploadsAreSteps(s, lake, init, c);
      t := UploadIsAStep(here, Applied(lake, init), last, c);
      P.ReachesTransitive(s, here, t);
    }
  }

  /** The payloads of these areas are among those seen, with digests of full length. */
  ghost predicate Covers(c: Source, areas: seq<Area>) {
    && (forall q | q in c.seen :: |c.digest(q)| == 64)
    && forall a | a in areas && a.response.Fetched? :: a.response.payload in c.seen
  }

  lemma AreaStores(c: Source, payload: Payload, requested: string, retrieved: Clock.Utc)
    requires payload in c.seen && |c.digest(payload)| == 64
    requires Clock.Valid(retrieved) && Clock.Valid(Clock.Snapshot(retrieved))
    ensures forall u | u in AreaUploads(payload, requested, retrieved, c.parse, Hash(c.digest, payload)) ::
              SyncUpload(c, u)
  {
    var hash := Hash(c.digest, payload);
    assert hash == c.digest(payload);
    var code, snapshot := AreaCode(payload), Clock.Snapshot(retrieved);
    var rows := SyncRows(payload, requested, retrieved, c.parse);
    if rows != [] {
      assert Stores(c, SnapshotKey(code, snapshot, hash), rows, payload, requested, retrieved);
    }
    KeysDiffer(RawKey(code, retrieved, snapshot, hash), SnapshotKey(code, snapshot, hash),
               QuarantineKey(code, retrieved, snapshot, hash));
    assert SEOUL_PREFIX[0] == 'b' && LANDING_PREFIX[0] == 'l' && QUARANTINE_PREFIX[0] == 'q';
  }

  lemma AreaIsARun(s: P.State, lake: map<string, LakeObject>, area: Area, retrieved: Clock.Utc, upload: bool, c: Source)
    returns (t: P.State)
    requires Mirrors(s, lake, c) && CollisionFree(c) && Covers(c, [area])
    requires Clock.Valid(retrieved) && Clock.Valid(Clock.Snapshot(retrieved))
    ensures P.Reaches(s, t) && Mirrors(t, AfterArea(lake, area, retrieved, upload, c.parse, c.digest), c)
  {
    if area.response.Fetched? && upload {
      var payload := area.response.payload;
      assert area in [area];
      AreaStores(c, payload, area.name, retrieved);
      var uploads := AreaUploads(payload, area.name, retrieved, c.parse, Hash(c.digest, payload));
      t := UploadsAreSteps(s, lake, uploads[..SeoulSync.Stored(area.failsAfter, |uploads|)], c);
    } else {
      P.ReachesItself(s);
      t := s;
    }
  }

  /**
   Whatever a sync stores, complete or cut short, a run of the pipeline protocol stores: from any state
   that holds the lake's accepted rows a run leads to one that holds those of the lake it leaves.
   */
  lemma {:induction false} SyncIsARun(s: P.State, lake: map<string, LakeObject>, areas: seq<Area>,
                                      retrieved: Clock.Utc, upload: bool, c: Source) returns (t: P.State)
    requires Mirrors(s, lake, c) && CollisionFree(c) && Covers(c, areas)
    requires Clock.Valid(retrieved) && Clock.Valid(Clock.Snapshot(retrieved))
    ensures P.Reaches(s, t) && Mirrors(t, AfterAreas(lake, areas, retrieved, upload, c.parse, c.digest), c)
    decreases |areas|
  {
    if areas == [] {
      P.ReachesItself(s);
      t := s;
    } else {
      assert areas[0] in areas;
      t := AreaIsARun(s, lake, areas[0], retrieved, upload, c);
      if Succeeds(areas[0], retrieved, upload, c.parse, c.digest) {
        var here := t;
        t := SyncIsARun(here, AfterArea(lake, areas[0], retrieved, upload, c.parse, c.digest), areas[1..],
                        retrieved, upload, c);
        P.ReachesTransitive(s, here, t);
      }
    }
  }
}
