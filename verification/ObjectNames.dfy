/**
 The names the repository's own processes give to bronze objects. None of them shares a local file with
 another, so where nothing else is loaded, the results that depend on local names hold as they stand.
 */
module ObjectNames {
  import opened Observations
  import Clock
  import KeyFlattening
  import B = BronzeProtocol
  import BronzeAccounting
  import FileLoader
  import SeoulIdentity
  import SeoulSync
  import P = Pipeline

  /** A file of the loader, named by a hexadecimal fingerprint. */
  ghost predicate ByLoader(key: string) {
    exists now, source, fingerprint ::
      && Clock.Valid(now) && source in FileLoader.SOURCE_SYSTEMS
      && |fingerprint| >= 16 && KeyFlattening.Plain(fingerprint[..16])
      && key == FileLoader.LoaderKey(now, source, fingerprint)
  }

  /** The area code does not confuse the flattening. */
  ghost predicate PlainCode(area: string) {
    KeyFlattening.Clean(area) && (area != "" ==> area[|area| - 1] != '_')
  }

  /** Accepted rows of a sync, of an area whose code is harmless. */
  ghost predicate BySync(key: string) {
    exists area, snapshot, hash ::
      && Clock.Valid(snapshot) && |hash| >= 12 && KeyFlattening.Plain(hash[..12]) && PlainCode(area)
      && key == SeoulIdentity.SnapshotKey(area, snapshot, hash)
  }

  ghost predicate OwnName(key: string) {
    B.IsBatchKey(key) || ByLoader(key) || BySync(key)
  }

  lemma OwnNameClean(key: string)
    requires OwnName(key)
    ensures KeyFlattening.Clean(key)
  {
    if B.IsBatchKey(key) {
      var t, f :| Clock.Valid(t) && key == B.BatchKey(t, f);
      B.BatchKeyClean(t, f);
    } else if ByLoader(key) {
      var now, source, fingerprint :|
        && Clock.Valid(now) && source in FileLoader.SOURCE_SYSTEMS
        && |fingerprint| >= 16 && KeyFlattening.Plain(fingerprint[..16])
        && key == FileLoader.LoaderKey(now, source, fingerprint);
      FileLoader.SourceSystemsPlain(source);
      FileLoader.LoaderKeyClean(now, source, fingerprint);
    } else {
      var area, snapshot, hash :|
        && Clock.Valid(snapshot) && |hash| >= 12 && KeyFlattening.Plain(hash[..12]) && PlainCode(area)
        && key == SeoulIdentity.SnapshotKey(area, snapshot, hash);
      SeoulSync.SnapshotKeyClean(area, snapshot, hash);
    }
  }

  /** Nothing was loaded but objects of the writer, the loader and the sync. */
  ghost predicate OnlyOwnListed(s: P.State) {
    forall k | k in s.manifest :: OwnName(k)
  }

  lemma OwnNamesApart(s: P.State)
    requires P.Reachable(s) && OnlyOwnListed(s)
    ensures P.NamesApart(s.commits)
  {
    P.ReachableInv(s);
    forall i | 0 <= i < |s.commits|
      ensures KeyFlattening.DistinctNames(s.commits[i].objects)
    {
      assert P.CommitInv(s.writer.objects, s.manifest, s.commits[i]);
      forall k | k in s.commits[i].objects
        ensures KeyFlattening.Clean(k)
      {
        OwnNameClean(k);
      }
      KeyFlattening.CleanKeysApart(s.commits[i].objects);
    }
  }

  /**
   While only objects of the writer, the loader and the sync are loaded, the warehouse holds exactly the
   identities of the listed objects; once all is flushed and loaded, every valid event of the log.
   */
  lemma OwnObjectsExactlyOnce(s: P.State, id: EventId)
    requires P.Reachable(s) && OnlyOwnListed(s)
    ensures id in s.observations <==> P.InListed(s.writer.objects, s.manifest, id)
    ensures BronzeAccounting.Drained(s.writer) && P.AllBatchesListed(s) ==>
              id in BronzeAccounting.ValidIds(s.writer.produced) ==> id in s.observations
  {
    OwnNamesApart(s);
    P.ExactlyOnceEffect(s, id);
    if BronzeAccounting.Drained(s.writer) && P.AllBatchesListed(s) {
      P.LogReachesWarehouse(s, id);
    }
  }
}
