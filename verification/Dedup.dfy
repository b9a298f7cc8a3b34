/**
 The Spark deduplication: number the rows of each event id from the latest ingestion on, keep
 number one. Which of several equally late rows comes first is Spark's choice, so results
 about the pipeline are stated for every outcome that is `LatestPerId`.
 */
module Dedup {
  import opened Observations

  /** Row j stands before row i in the window of row i. */
  predicate Precedes(frame: seq<Row>, j: nat, i: nat)
    requires i < |frame| && j < |frame|
  {
    && frame[j].eventId == frame[i].eventId
    && (|| frame[j].ingestedAt > frame[i].ingestedAt
        || (frame[j].ingestedAt == frame[i].ingestedAt && j < i))
  }

  /** How many of the first n rows stand before row i. */
  function PrecedingCount(frame: seq<Row>, i: nat, n: nat): nat
    requires i < |frame| && n <= |frame|
  {
    if n == 0 then 0
    else PrecedingCount(frame, i, n - 1) + if Precedes(frame, n - 1, i) then 1 else 0
  }

  function RowNumber(frame: seq<Row>, i: nat): nat
    requires i < |frame|
  {
    1 + PrecedingCount(frame, i, |frame|)
  }

  /** The rows numbered one among the first n. */
  function KeepFirst(frame: seq<Row>, n: nat): seq<Row>
    requires n <= |frame|
  {
    if n == 0 then []
    else KeepFirst(frame, n - 1) + if RowNumber(frame, n - 1) == 1 then [frame[n - 1]] else []
  }

  function Deduplicate(frame: seq<Row>): seq<Row> {
    KeepFirst(frame, |frame|)
  }

  /** One row per id, taken from the frame, none of the same id ingested later. */
  ghost predicate LatestPerId(frame: seq<Row>, latest: seq<Row>) {
    && DistinctIds(latest)
    && Ids(latest) == Ids(frame)
    && (forall r | r in latest :: r in frame)
    && (forall r, x | r in latest && x in frame && x.eventId == r.eventId :: x.ingestedAt <= r.ingestedAt)
  }

  lemma {:induction false} NonePrecedes(frame: seq<Row>, i: nat, n: nat)
    requires i < |frame| && n <= |frame|
    ensures PrecedingCount(frame, i, n) == 0 <==> forall j: nat | j < n :: !Precedes(frame, j, i)
  {
    if n > 0 {
      NonePrecedes(frame, i, n - 1);
    }
  }

  lemma {:induction false} KeepFirstMembers(frame: seq<Row>, n: nat)
    requires n <= |frame|
    ensures forall r :: r in KeepFirst(frame, n) <==>
                        exists i: nat :: i < n && RowNumber(frame, i) == 1 && frame[i] == r
    ensures DistinctIds(KeepFirst(frame, n))
  {
    if n > 0 {
      KeepFirstMembers(frame, n - 1);
      var init := KeepFirst(frame, n - 1);
      if RowNumber(frame, n - 1) == 1 {
        forall k | 0 <= k < |init|
          ensures init[k].eventId != frame[n - 1].eventId
        {
          assert init[k] in init;
          var i: nat :| i < n - 1 && RowNumber(frame, i) == 1 && frame[i] == init[k];
          NonePrecedes(frame, i, |frame|);
          NonePrecedes(frame, n - 1, |frame|);
          assert !Precedes(frame, i, n - 1) && !Precedes(frame, n - 1, i);
        }
      }
    }
  }

  /** Among the rows of one id there is one that nothing precedes. */
  lemma {:induction false} FirstOfWindow(frame: seq<Row>, i: nat) returns (first: nat)
    requires i < |frame|
    ensures first < |frame| && frame[first].eventId == frame[i].eventId
    ensures RowNumber(frame, first) == 1
    ensures forall j: nat | j < |frame| && frame[j].eventId == frame[i].eventId ::
              frame[j].ingestedAt <= frame[first].ingestedAt
  {
    first := i;
    var n := 0;
    while n < |frame|
      invariant n <= |frame| && first < |frame|
      invariant frame[first].eventId == frame[i].eventId
      invariant forall j: nat | j < n :: !Precedes(frame, j, first)
    {
      if Precedes(frame, n, first) {
        forall j: nat | j < n
          ensures !Precedes(frame, j, n)
        {
          assert !Precedes(frame, j, first);
        }
        first := n;
      }
      n := n + 1;
    }
    NonePrecedes(frame, first, |frame|);
    forall j: nat | j < |frame| && frame[j].eventId == frame[i].eventId
      ensures frame[j].ingestedAt <= frame[first].ingestedAt
    {
      assert !Precedes(frame, j, first);
    }
  }

  /** The window expression computes a latest row per id, on every frame. */
  lemma DeduplicateKeepsLatest(frame: seq<Row>)
    ensures LatestPerId(frame, Deduplicate(frame))
  {
    var out := Deduplicate(frame);
    KeepFirstMembers(frame, |frame|);
    forall id | id in Ids(frame)
      ensures id in Ids(out)
    {
      var r :| r in frame && r.eventId == id;
      var i: nat :| i < |frame| && frame[i] == r;
      var first := FirstOfWindow(frame, i);
      assert frame[first] in out;
    }
    forall r, x | r in out && x in frame && x.eventId == r.eventId
      ensures x.ingestedAt <= r.ingestedAt
    {
      var i: nat :| i < |frame| && RowNumber(frame, i) == 1 && frame[i] == r;
      var j: nat :| j < |frame| && frame[j] == x;
      NonePrecedes(frame, i, |frame|);
      assert !Precedes(frame, j, i);
    }
  }

  /** Whatever the tie choices: as many rows as ids, never more than the frame. */
  lemma LatestPerIdCount(frame: seq<Row>, latest: seq<Row>)
    requires LatestPerId(frame, latest)
    ensures |latest| == |Ids(frame)|
    ensures |latest| <= |frame|
  {
    DistinctIdsCount(latest);
    IdsBound(frame);
  }

  lemma {:induction false} IdsBound(rows: seq<Row>)
    ensures |Ids(rows)| <= |rows|
  {
    if rows == [] {
      assert Ids(rows) == {};
    } else {
      IdsBound(rows[..|rows| - 1]);
      IdsSnoc(rows);
    }
  }

  // ---- Whether a load can commit ----------------------------------------------------------

  /** A latest ingested row of its id that meets the warehouse's constraints. */
  ghost predicate LoadableCopy(frame: seq<Row>, id: EventId, r: Row) {
    && r in frame && r.eventId == id && Checks(r)
    && forall x | x in frame && x.eventId == id :: x.ingestedAt <= r.ingestedAt
  }

  ghost predicate Loadable(frame: seq<Row>, id: EventId) {
    exists r :: LoadableCopy(frame, id, r)
  }

  /** Spark may keep rows of this frame that all meet the constraints. */
  ghost predicate CanLoad(frame: seq<Row>) {
    exists latest: seq<Row> :: LatestPerId(frame, latest) && forall r | r in latest :: Checks(r)
  }

  lemma DistinctSnoc(rows: seq<Row>, r: Row)
    requires DistinctIds(rows) && r.eventId !in Ids(rows)
    ensures DistinctIds(rows + [r]) && Ids(rows + [r]) == Ids(rows) + {r.eventId}
  {
    IdsSnoc(rows + [r]);
    assert (rows + [r])[..|rows|] == rows;
    forall i | 0 <= i < |rows|
      ensures rows[i].eventId != r.eventId
    {
      assert rows[i] in rows;
    }
  }

  /** One loadable copy for each of some ids. */
  lemma PickCopies(frame: seq<Row>, ids: set<EventId>) returns (rows: seq<Row>)
    requires forall id | id in ids :: Loadable(frame, id)
    ensures DistinctIds(rows) && Ids(rows) == ids
    ensures forall r | r in rows :: LoadableCopy(frame, r.eventId, r)
    decreases |ids|
  {
    if ids == {} {
      rows := [];
    } else {
      var id :| id in ids;
      var rest := PickCopies(frame, ids - {id});
      assert Loadable(frame, id);
      var r :| LoadableCopy(frame, id, r);
      rows := rest + [r];
      DistinctSnoc(rest, r);
      assert ids - {id} + {id} == ids;
    }
  }

  /**
   Whatever ties Spark breaks, a frame can pass the warehouse's constraints exactly when each of its
   ids has a latest ingested row that meets them. A row that does not is harmless as long as a
   later copy of its event does.
   */
  lemma FrameCanLoad(frame: seq<Row>)
    ensures CanLoad(frame) <==> forall id | id in Ids(frame) :: Loadable(frame, id)
  {
    if CanLoad(frame) {
      var latest: seq<Row> :| LatestPerId(frame, latest) && forall r | r in latest :: Checks(r);
      forall id | id in Ids(frame)
        ensures Loadable(frame, id)
      {
        assert id in Ids(latest);
        var r :| r in latest && r.eventId == id;
        assert LoadableCopy(frame, id, r);
      }
    }
    if forall id | id in Ids(frame) :: Loadable(frame, id) {
      var latest := PickCopies(frame, Ids(frame));
      assert forall r | r in latest :: LoadableCopy(frame, r.eventId, r);
      assert LatestPerId(frame, latest);
    }
  }
}
