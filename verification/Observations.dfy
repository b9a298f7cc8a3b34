/**
 A traffic observation as it travels through the pipeline, the event contract it must meet
 to be accepted, and the constraints of the warehouse table it is finally loaded into.

 Times are microseconds since the Unix epoch. Coordinates, speeds and lengths are real
 numbers: floating-point noise is not modelled.
 */
module Observations {
  import opened Base

  /**
   The identity of an observation. The digests the code computes (version-5 UUIDs and
   SHA-256) are taken to be injective, so an identity is represented by what is digested.
   */
  datatype EventId = Uuid5(name: string) | StableHash(stableKey: string) | Assigned(text: string)

  datatype Point = Point(longitude: real, latitude: real)

  datatype Row = Row(
    eventId: EventId,
    segmentId: Option<string>,  // the file loader lets a missing one pass
    roadName: string,
    areaCode: Option<string>,
    areaName: Option<string>,
    centre: Point,
    start: Option<Point>,
    end: Option<Point>,
    observedAt: int,
    ingestedAt: int,
    lengthKm: real,
    speedKph: real,
    referenceKph: Option<real>,
    volume: Option<int>,
    travelSeconds: real
  )

  // ---- The event contract -------------------------------------------------------------

  predicate ValidEventId(id: EventId) {
    // A rendered UUID has 36 characters and "evt-" plus a SHA-256 has 68: both lengths are legal.
    id.Assigned? ==> 8 <= |id.text| <= 80
  }

  predicate AlphaNumeric(c: char) {
    'A' <= c <= 'Z' || 'a' <= c <= 'z' || '0' <= c <= '9'
  }

  predicate SegmentChar(c: char) {
    AlphaNumeric(c) || c == '.' || c == '_' || c == ':' || c == '-'
  }

  predicate ValidSegmentId(s: string) {
    3 <= |s| <= 80 && AlphaNumeric(s[0]) && forall i | 1 <= i < |s| :: SegmentChar(s[i])
  }

  predicate OnEarth(p: Point) {
    -90.0 <= p.latitude <= 90.0 && -180.0 <= p.longitude <= 180.0
  }

  predicate Contract(r: Row) {
    && ValidEventId(r.eventId)
    && r.segmentId.Some? && ValidSegmentId(r.segmentId.value)
    && 1 <= |r.roadName| <= 100
    && (r.areaCode.Some? ==> |r.areaCode.value| <= 30)
    && (r.areaName.Some? ==> |r.areaName.value| <= 100)
    && OnEarth(r.centre)
    && (r.start.Some? ==> OnEarth(r.start.value))
    && (r.end.Some? ==> OnEarth(r.end.value))
    && 0.0 < r.lengthKm <= 100.0
    && 0.0 < r.speedKph <= 180.0
    && (r.referenceKph.Some? ==> 0.0 < r.referenceKph.value <= 180.0)
    && (r.volume.Some? ==> 0 <= r.volume.value <= 20_000)
    && 0.0 < r.travelSeconds <= 7_200.0
  }

  /** Coordinates from pole to pole and once around; a missing pair is fine where it is optional. */
  predicate OnEarthIfGiven(p: Option<Point>) {
    p.None? || (p.value.latitude >= -90.0 && p.value.latitude <= 90.0
                && p.value.longitude >= -180.0 && p.value.longitude <= 180.0)
  }

  /** Every column is judged on its own: exchanging one in a valid event is fine exactly when its new value is. */
  lemma ColumnsJudgedAlone(r: Row, x: Row)
    requires Contract(r)
    ensures Contract(r.(centre := x.centre)) <==> OnEarthIfGiven(Some(x.centre))
    ensures Contract(r.(start := x.start)) <==> OnEarthIfGiven(x.start)
    ensures Contract(r.(end := x.end)) <==> OnEarthIfGiven(x.end)
    ensures Contract(r.(areaCode := x.areaCode)) <==> x.areaCode.None? || |x.areaCode.value| <= 30
    ensures Contract(r.(areaName := x.areaName)) <==> x.areaName.None? || |x.areaName.value| <= 100
    ensures Contract(r.(lengthKm := x.lengthKm)) <==> 0.0 < x.lengthKm <= 100.0
    ensures Contract(r.(speedKph := x.speedKph)) <==> 0.0 < x.speedKph <= 180.0
    ensures Contract(r.(referenceKph := x.referenceKph)) <==>
            x.referenceKph.None? || 0.0 < x.referenceKph.value <= 180.0
    ensures Contract(r.(volume := x.volume)) <==> x.volume.None? || 0 <= x.volume.value <= 20_000
    ensures Contract(r.(travelSeconds := x.travelSeconds)) <==> 0.0 < x.travelSeconds <= 7_200.0
    ensures Contract(r.(observedAt := x.observedAt, ingestedAt := x.ingestedAt))
  {
  }

  // ---- Columns the transform derives --------------------------------------------------

  const MICROS_PER_SECOND: int := 1_000_000

  /** Whole seconds since the epoch: fractions are dropped. */
  function UnixSeconds(micros: int): int {
    micros / MICROS_PER_SECOND
  }

  predicate IsLate(r: Row) {
    UnixSeconds(r.ingestedAt) - UnixSeconds(r.observedAt) > 900
  }

  /** What the data contract calls late: more than fifteen minutes between observation and ingestion. */
  predicate OverFifteenMinutes(r: Row) {
    r.ingestedAt - r.observedAt > 900 * MICROS_PER_SECOND
  }

  /**
   The flag never calls a punctual row late. It misses a late one exactly when the whole seconds
   lie fifteen minutes apart and only the dropped fractions tell the delay.
   */
  lemma LateAgainstContract(r: Row)
    ensures IsLate(r) ==> OverFifteenMinutes(r)
    ensures (IsLate(r) <==> OverFifteenMinutes(r)) <==>
            !(&& UnixSeconds(r.ingestedAt) == UnixSeconds(r.observedAt) + 900
              && r.ingestedAt % MICROS_PER_SECOND > r.observedAt % MICROS_PER_SECOND)
  {
    var a, b := r.observedAt, r.ingestedAt;
    assert a == UnixSeconds(a) * MICROS_PER_SECOND + a % MICROS_PER_SECOND;
    assert b == UnixSeconds(b) * MICROS_PER_SECOND + b % MICROS_PER_SECOND;
  }

  /** A row fifteen minutes and half a second behind is not flagged. */
  lemma HalfSecondMissed(r: Row)
    ensures var slow := r.(observedAt := 0, ingestedAt := 900_500_000);
            OverFifteenMinutes(slow) && !IsLate(slow)
  {
  }

  /** Rounding of a non-negative number to six decimals, halves up. */
  function RoundSix(x: real): real {
    (x * 1_000_000.0 + 0.5).Floor as real / 1_000_000.0
  }

  function SpeedIndex(r: Row): Option<real>
    requires r.referenceKph.Some? ==> r.referenceKph.value != 0.0
  {
    match r.referenceKph
    case None => None
    case Some(reference) => Some(RoundSix(r.speedKph / reference))
  }

  /** The index is the share of the reference speed to the nearest millionth; without a reference there is none. */
  lemma SpeedIndexNear(r: Row)
    requires r.referenceKph.Some? ==> r.referenceKph.value > 0.0
    ensures SpeedIndex(r).Some? <==> r.referenceKph.Some?
    ensures r.referenceKph.Some? ==>
              var index, reference := SpeedIndex(r).value, r.referenceKph.value;
              && -0.0000005 * reference <= index * reference - r.speedKph <= 0.0000005 * reference
              && index * 1_000_000.0 == (index * 1_000_000.0).Floor as real
  {
    if r.referenceKph.Some? {
      var reference := r.referenceKph.value;
      var ratio := r.speedKph / reference;
      assert ratio * reference == r.speedKph;
      RoundSixNear(ratio);
      var off := RoundSix(ratio) - ratio;
      assert off * reference == RoundSix(ratio) * reference - r.speedKph;
      ScaledBetween(off, reference);
    }
  }

  lemma RoundSixNear(x: real)
    ensures RoundSix(x) * 1_000_000.0 == (RoundSix(x) * 1_000_000.0).Floor as real
    ensures -0.0000005 <= RoundSix(x) - x <= 0.0000005
  {
    assert RoundSix(x) * 1_000_000.0 == (x * 1_000_000.0 + 0.5).Floor as real;
  }

  lemma ScaledBetween(off: real, factor: real)
    requires factor > 0.0 && -0.0000005 <= off <= 0.0000005
    ensures -0.0000005 * factor <= off * factor <= 0.0000005 * factor
  {
  }

  // ---- Constraints of the warehouse table ---------------------------------------------

  /** What raw.traffic_observation asks of one row by its NOT NULL and CHECK clauses. */
  predicate Checks(r: Row) {
    && r.segmentId.Some?
    && r.lengthKm > 0.0
    && r.speedKph > 0.0
    && (r.referenceKph.Some? ==> r.referenceKph.value > 0.0)
    && (r.volume.Some? ==> r.volume.value >= 0)
    && r.travelSeconds > 0.0
    && (r.referenceKph.Some? ==> SpeedIndex(r).value > 0.0)
  }

  lemma RoundSixPositive(x: real)
    ensures RoundSix(x) > 0.0 <==> 2_000_000.0 * x >= 1.0
  {
    var y := x * 1_000_000.0 + 0.5;
    assert y.Floor as real <= y < y.Floor as real + 1.0;
    if 2_000_000.0 * x >= 1.0 {
      assert y >= 1.0;
      assert y.Floor >= 1;
    } else {
      assert y < 1.0;
      assert y.Floor <= 0;
    }
  }

  /**
   Rows that meet the event contract do not all fit the warehouse: the rounded speed index
   may round to zero. The warehouse takes a contract row exactly when it names no reference
   speed or its speed is at least a two-millionth of the reference.
   */
  lemma ContractRowFitsWarehouse(r: Row)
    requires Contract(r)
    ensures Checks(r) <==>
            r.referenceKph.None? || 2_000_000.0 * r.speedKph >= r.referenceKph.value
  {
    if r.referenceKph.Some? {
      var reference := r.referenceKph.value;
      var ratio := r.speedKph / reference;
      RoundSixPositive(ratio);
      ScaledComparison(r.speedKph, reference);
    }
  }

  lemma ScaledComparison(speed: real, reference: real)
    requires reference > 0.0
    ensures 2_000_000.0 * (speed / reference) >= 1.0 <==> 2_000_000.0 * speed >= reference
  {
    var ratio := speed / reference;
    assert ratio * reference == speed;
    var d := 2_000_000.0 * ratio - 1.0;
    assert d * reference == 2_000_000.0 * (ratio * reference) - reference;
    if d >= 0.0 {
      assert d * reference >= 0.0;
    } else {
      assert d * reference < 0.0;
    }
  }

  /** A concrete contract row that the warehouse refuses. */
  lemma ContractRowRefused(r: Row)
    requires Contract(r)
    ensures var slow := r.(speedKph := 0.00001, referenceKph := Some(100.0));
            Contract(slow) && !Checks(slow)
  {
    ContractRowFitsWarehouse(r.(speedKph := 0.00001, referenceKph := Some(100.0)));
  }

  // ---- Sets of identities -------------------------------------------------------------

  ghost function Ids(rows: seq<Row>): set<EventId> {
    set r | r in rows :: r.eventId
  }

  /** One row per identity. */
  predicate DistinctIds(rows: seq<Row>) {
    forall i, j | 0 <= i < j < |rows| :: rows[i].eventId != rows[j].eventId
  }

  lemma IdsConcat(a: seq<Row>, b: seq<Row>)
    ensures Ids(a + b) == Ids(a) + Ids(b)
  {
    forall id | id in Ids(a) + Ids(b)
      ensures id in Ids(a + b)
    {
      if id in Ids(a) {
        var r :| r in a && r.eventId == id;
        assert r in a + b;
      } else {
        var r :| r in b && r.eventId == id;
        assert r in a + b;
      }
    }
  }

  lemma IdsSnoc(rows: seq<Row>)
    requires rows != []
    ensures Ids(rows) == Ids(rows[..|rows| - 1]) + {rows[|rows| - 1].eventId}
  {
    var init, last := rows[..|rows| - 1], rows[|rows| - 1];
    assert rows == init + [last];
    IdsConcat(init, [last]);
    assert Ids([last]) == {last.eventId} by {
      assert last in [last];
    }
  }

  /** Rows with distinct identities are as many as their identities. */
  lemma {:induction false} DistinctIdsCount(rows: seq<Row>)
    requires DistinctIds(rows)
    ensures |Ids(rows)| == |rows|
  {
    if rows == [] {
      assert Ids(rows) == {};
    } else {
      var init, last := rows[..|rows| - 1], rows[|rows| - 1];
      DistinctIdsCount(init);
      IdsSnoc(rows);
      assert last.eventId !in Ids(init);
    }
  }
}
