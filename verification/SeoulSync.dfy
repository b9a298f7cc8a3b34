/**
 The Seoul connector: coordinate lists are parsed, roads normalised into contract rows, and each
 area's payload, accepted rows and rejects are stored. `parse` is the text-to-number conversion
 (None where it raises), `digest` the hexadecimal payload hash.
 */
module SeoulSync {
  import opened Base
  import opened Observations
  import opened Clock
  import opened SeoulIdentity
  import opened KeyFlattening

  type Parse = string -> Option<real>

  // ---- Coordinates ----------------------------------------------------------------------

  /** str.split: the pieces between separators, empty ones included. */
  function SplitAll(s: string, c: char): (pieces: seq<string>)
    ensures |pieces| >= 1
  {
    if s == "" then [""]
    else
      var rest := SplitAll(s[1..], c);
      if s[0] == c then [""] + rest else [[s[0]] + rest[0]] + rest[1..]
  }

  /** str.split with one split at most: what stands before and after the first separator. */
  function SplitOnce(s: string, c: char): Option<(string, string)> {
    if s == "" then None
    else if s[0] == c then Some(("", s[1..]))
    else match SplitOnce(s[1..], c)
         case None => None
         case Some((before, after)) => Some(([s[0]] + before, after))
  }

  /** The pieces joined by the separator are the text. */
  function JoinAll(pieces: seq<string>, c: char): string
    requires pieces != []
  {
    if |pieces| == 1 then pieces[0] else pieces[0] + [c] + JoinAll(pieces[1..], c)
  }

  lemma {:induction false} SplitAllJoins(s: string, c: char)
    ensures JoinAll(SplitAll(s, c), c) == s && forall piece | piece in SplitAll(s, c) :: c !in piece
  {
    if s != "" {
      SplitAllJoins(s[1..], c);
      var rest := SplitAll(s[1..], c);
      assert rest[0] in rest && forall k | k in rest[1..] :: k in rest;
      if s[0] == c {
        assert ([""] + rest)[1..] == rest;
        assert s == "" + [c] + s[1..];
      } else {
        assert s == [s[0]] + s[1..];
        JoinHead(s[0], rest, c);
      }
    }
  }

  lemma JoinHead(x: char, rest: seq<string>, c: char)
    requires rest != []
    ensures JoinAll([[x] + rest[0]] + rest[1..], c) == [x] + JoinAll(rest, c)
  {
    var more := [[x] + rest[0]] + rest[1..];
    assert more[1..] == rest[1..];
    if |rest| > 1 {
      assert [x] + rest[0] + [c] + JoinAll(rest[1..], c) == [x] + (rest[0] + [c] + JoinAll(rest[1..], c));
    }
  }

  /** What stands before the first separator, and all that follows it. */
  lemma {:induction false} SplitOnceReads(before: string, c: char, after: string)
    requires c !in before
    ensures SplitOnce(before + [c] + after, c) == Some((before, after))
    decreases |before|
  {
    var s := before + [c] + after;
    if before == "" {
      assert s[0] == c && s[1..] == after;
    } else {
      assert s[1..] == before[1..] + [c] + after && s[0] == before[0];
      assert before[0] in before;
      SplitOnceReads(before[1..], c, after);
      assert [before[0]] + before[1..] == before;
    }
  }

  lemma {:induction false} SplitOnceNone(s: string, c: char)
    ensures SplitOnce(s, c).None? <==> c !in s
  {
    if s != "" {
      SplitOnceNone(s[1..], c);
      assert s == [s[0]] + s[1..];
    }
  }

  predicate InServiceArea(p: Point) {
    126.0 <= p.longitude <= 128.0 && 36.0 <= p.latitude <= 38.5
  }

  /** One item of XYLIST, or None where the code raises ValueError. */
  function ItemPoint(item: string, parse: Parse): Option<Point> {
    match SplitOnce(item, '_')
    case None => None
    case Some((longitude, latitude)) =>
      if parse(longitude).None? || parse(latitude).None? then None
      else
        var p := Point(parse(longitude).value, parse(latitude).value);
        if InServiceArea(p) then Some(p) else None
  }

  /** An item is longitude, underscore, latitude, both numbers within the service area. */
  lemma ItemPointReads(longitude: string, latitude: string, parse: Parse)
    requires '_' !in longitude
    ensures var item := longitude + ['_'] + latitude;
            if && parse(longitude).Some? && parse(latitude).Some?
               && 126.0 <= parse(longitude).value <= 128.0 && 36.0 <= parse(latitude).value <= 38.5
            then && ItemPoint(item, parse).Some?
                 && ItemPoint(item, parse).value.longitude == parse(longitude).value
                 && ItemPoint(item, parse).value.latitude == parse(latitude).value
            else ItemPoint(item, parse).None?
  {
    SplitOnceReads(longitude, '_', latitude);
  }

  /** Without an underscore it raises. */
  lemma ItemWithoutUnderscore(item: string, parse: Parse)
    requires '_' !in item
    ensures ItemPoint(item, parse).None?
  {
    SplitOnceNone(item, '_');
  }

  /** The points of all non-empty items, or None as soon as one raises. */
  function ItemPoints(items: seq<string>, parse: Parse): Option<seq<Point>> {
    if items == [] then Some([])
    else
      var last := items[|items| - 1];
      match ItemPoints(items[..|items| - 1], parse)
      case None => None
      case Some(points) =>
        if last == "" then Some(points)
        else match ItemPoint(last, parse)
             case None => None
             case Some(p) => Some(points + [p])
  }

  function PointList(raw: string, parse: Parse): Option<seq<Point>> {
    match ItemPoints(SplitAll(raw, '|'), parse)
    case None => None
    case Some(points) => if |points| < 2 then None else Some(points)
  }

  /** The pieces that hold anything. */
  ghost function NonEmpty(items: seq<string>): seq<string> {
    if items == [] then []
    else NonEmpty(items[..|items| - 1]) + if items[|items| - 1] == "" then [] else [items[|items| - 1]]
  }

  /** Every piece that holds anything is a point. */
  ghost predicate AllPoints(items: seq<string>, parse: Parse) {
    forall i | 0 <= i < |items| && items[i] != "" :: ItemPoint(items[i], parse).Some?
  }

  lemma {:induction false} ItemPointsRead(items: seq<string>, parse: Parse)
    ensures ItemPoints(items, parse).Some? <==> AllPoints(items, parse)
    ensures ItemPoints(items, parse).Some? ==>
              var points, pieces := ItemPoints(items, parse).value, NonEmpty(items);
              |points| == |pieces| && forall i | 0 <= i < |points| :: ItemPoint(pieces[i], parse) == Some(points[i])
  {
    if items != [] {
      var n := |items| - 1;
      ItemPointsRead(items[..n], parse);
      assert AllPoints(items, parse) <==> AllPoints(items[..n], parse) && AllPoints([items[n]], parse) by {
        assert forall i | 0 <= i < n :: items[..n][i] == items[i];
      }
      assert [items[n]][0] == items[n];
    }
  }

  /**
   A list parses exactly when every piece between bars that holds anything is a point, and at least two do;
   it is then those points in their order.
   */
  lemma PointListReads(raw: string, parse: Parse)
    ensures var items := SplitAll(raw, '|');
            && (PointList(raw, parse).Some? <==> AllPoints(items, parse) && |NonEmpty(items)| >= 2)
            && (PointList(raw, parse).Some? ==>
                  var points, pieces := PointList(raw, parse).value, NonEmpty(items);
                  && |points| == |pieces|
                  && forall i | 0 <= i < |points| :: ItemPoint(pieces[i], parse) == Some(points[i]))
  {
    ItemPointsRead(SplitAll(raw, '|'), parse);
  }

  lemma {:induction false} ItemPointsNone(items: seq<string>, parse: Parse, i: nat)
    requires i <= |items| && ItemPoints(items[..i], parse).None?
    ensures ItemPoints(items, parse).None?
    decreases |items| - i
  {
    if i < |items| {
      assert items[..i + 1][..i] == items[..i];
      ItemPointsNone(items, parse, i + 1);
    } else {
      assert items[..i] == items;
    }
  }

  method CoordinatePoints(raw: string, parse: Parse) returns (r: Option<seq<Point>>)
    ensures r == PointList(raw, parse)
    ensures r.Some? ==> |r.value| >= 2 && forall p | p in r.value :: InServiceArea(p)
  {
    var items := SplitAll(raw, '|');
    var points := [];
    for i := 0 to |items|
      invariant ItemPoints(items[..i], parse) == Some(points)
      invariant forall p | p in points :: InServiceArea(p)
    {
      assert items[..i + 1][..i] == items[..i];
      if items[i] != "" {
        var point := ItemPoint(items[i], parse);
        if point.None? {
          ItemPointsNone(items, parse, i + 1);
          return None;
        }
        points := points + [point.value];
      }
    }
    assert items[..|items|] == items;
    if |points| < 2 {
      return None;
    }
    return Some(points);
  }

  lemma {:induction false} ItemPointsInside(items: seq<string>, parse: Parse)
    requires ItemPoints(items, parse).Some?
    ensures forall p | p in ItemPoints(items, parse).value :: InServiceArea(p)
  {
    if items != [] {
      ItemPointsInside(items[..|items| - 1], parse);
    }
  }

  function LongitudeSum(points: seq<Point>): real {
    if points == [] then 0.0 else LongitudeSum(points[..|points| - 1]) + points[|points| - 1].longitude
  }

  function LatitudeSum(points: seq<Point>): real {
    if points == [] then 0.0 else LatitudeSum(points[..|points| - 1]) + points[|points| - 1].latitude
  }

  function Mean(points: seq<Point>): Point
    requires points != []
  {
    Point(LongitudeSum(points) / |points| as real, LatitudeSum(points) / |points| as real)
  }

  lemma {:induction false} SumsBounded(points: seq<Point>)
    requires forall p | p in points :: InServiceArea(p)
    ensures 126.0 * |points| as real <= LongitudeSum(points) <= 128.0 * |points| as real
    ensures 36.0 * |points| as real <= LatitudeSum(points) <= 38.5 * |points| as real
  {
    if points != [] {
      var init, last := points[..|points| - 1], points[|points| - 1];
      SumsBounded(init);
      assert last in points && InServiceArea(last);
      assert |points| as real == |init| as real + 1.0;
    }
  }

  lemma MeanBetween(sum: real, n: real, low: real, high: real)
    requires n > 0.0 && low * n <= sum <= high * n
    ensures low <= sum / n <= high
  {
    var mean := sum / n;
    assert mean * n == sum;
    assert (mean - low) * n >= 0.0;
    assert (high - mean) * n >= 0.0;
    NegativeTimes(mean - low, n);
    NegativeTimes(high - mean, n);
  }

  lemma NegativeTimes(x: real, n: real)
    requires n > 0.0
    ensures x < 0.0 ==> x * n < 0.0
  {
  }

  /** Whatever list the parser accepts: first, last and mean point stay inside the service area. */
  lemma AcceptedPointsStayInside(raw: string, parse: Parse)
    requires PointList(raw, parse).Some?
    ensures var points := PointList(raw, parse).value;
            && |points| >= 2
            && InServiceArea(points[0]) && InServiceArea(points[|points| - 1])
            && InServiceArea(Mean(points))
  {
    var points := PointList(raw, parse).value;
    ItemPointsInside(SplitAll(raw, '|'), parse);
    assert points[0] in points && points[|points| - 1] in points;
    MeanInside(points);
  }

  lemma MeanInside(points: seq<Point>)
    requires points != [] && forall p | p in points :: InServiceArea(p)
    ensures InServiceArea(Mean(points))
  {
    SumsBounded(points);
    MeanBetween(LongitudeSum(points), |points| as real, 126.0, 128.0);
    MeanBetween(LatitudeSum(points), |points| as real, 36.0, 38.5);
  }

  // ---- One road -------------------------------------------------------------------------

  /**
   A road of the payload. Texts are stripped and empty when missing; numbers are None when the
   field is missing or does not convert.
   */
  datatype Road = Road(linkId: string, roadName: string, dist: Option<real>, spd: Option<real>, xyList: string)

  /** Driving for these seconds at this speed covers this length. */
  predicate Covers(seconds: real, kph: real, km: real) {
    seconds * kph == km * 3_600.0
  }

  lemma TravelCovers(length: real, speed: real)
    requires speed > 0.0
    ensures Covers(length / speed * 3_600.0, speed, length)
  {
    var hours := length / speed;
    assert hours * speed == length;
    assert hours * 3_600.0 * speed == hours * speed * 3_600.0;
  }

  function Kilometres(metres: real): (km: real)
    ensures km * 1_000.0 == metres
  {
    metres / 1_000.0
  }

  function TravelSeconds(km: real, kph: real): (seconds: real)
    requires kph > 0.0
    ensures Covers(seconds, kph, km)
  {
    TravelCovers(km, kph);
    km / kph * 3_600.0
  }

  /** The row a road is validated as, or None where building it already raises. */
  function Candidate(road: Road, areaCode: string, areaName: string, snapshot: Utc, retrieved: Utc,
                     parse: Parse): Option<Row>
    requires Valid(snapshot) && Valid(retrieved)
  {
    match PointList(road.xyList, parse)
    case None => None
    case Some(points) =>
      if road.dist.None? || road.spd.None? || road.spd.value <= 0.0 then None
      else
        var lengthKm := Kilometres(road.dist.value);
        var speed := road.spd.value;
        Some(Row(
          StableHash(StableKey(areaCode, road.linkId, snapshot)),
          Some(road.linkId), road.roadName, Some(areaCode), Some(areaName),
          Mean(points), Some(points[0]), Some(points[|points| - 1]),
          EpochMicros(snapshot), EpochMicros(retrieved),
          lengthKm, speed, None, None, TravelSeconds(lengthKm, speed)))
  }

  /** The normalised row, or None where the road is rejected. */
  function NormalizeRoad(road: Road, areaCode: string, areaName: string, snapshot: Utc, retrieved: Utc,
                         parse: Parse): Option<Row>
    requires Valid(snapshot) && Valid(retrieved)
  {
    match Candidate(road, areaCode, areaName, snapshot, retrieved, parse)
    case None => None
    case Some(row) => if Contract(row) then Some(row) else None
  }

  /** Once the coordinates parse, the contract's coordinate checks never reject the road. */
  lemma CoordinateChecksNeverFire(road: Road, areaCode: string, areaName: string, snapshot: Utc, retrieved: Utc,
                                  parse: Parse, row: Row)
    requires Valid(snapshot) && Valid(retrieved)
    ensures Candidate(road, areaCode, areaName, snapshot, retrieved, parse) == Some(row) ==>
              && row.start.Some? && row.end.Some?
              && Inside(row.centre) && Inside(row.start.value) && Inside(row.end.value)
  {
    if Candidate(road, areaCode, areaName, snapshot, retrieved, parse) == Some(row) {
      PointsOnEarth(road.xyList, parse);
    }
  }

  lemma PointsOnEarth(raw: string, parse: Parse)
    requires PointList(raw, parse).Some?
    ensures var points := PointList(raw, parse).value;
            |points| >= 2 && Inside(points[0]) && Inside(points[|points| - 1]) && Inside(Mean(points))
  {
    AcceptedPointsStayInside(raw, parse);
  }

  /** Inside the service area and so within what the contract asks of a coordinate. */
  predicate Inside(p: Point) {
    InServiceArea(p) && OnEarth(p)
  }

  /**
   Exactly which roads are kept: the coordinates parse, link and names fit, and so do length and speed;
   driving the length at that speed may take two hours at most.
   */
  lemma AcceptedExactlyWhen(road: Road, areaCode: string, areaName: string, snapshot: Utc, retrieved: Utc, parse: Parse)
    requires Valid(snapshot) && Valid(retrieved)
    ensures NormalizeRoad(road, areaCode, areaName, snapshot, retrieved, parse).Some? <==>
              && PointList(road.xyList, parse).Some?
              && ValidSegmentId(road.linkId) && 1 <= |road.roadName| <= 100 && |areaCode| <= 30 && |areaName| <= 100
              && road.dist.Some? && 0.0 < road.dist.value <= 100_000.0
              && road.spd.Some? && 0.0 < road.spd.value <= 180.0
              && road.dist.value <= 2_000.0 * road.spd.value
  {
    var candidate := Candidate(road, areaCode, areaName, snapshot, retrieved, parse);
    if candidate.Some? {
      CandidateBuilt(road, areaCode, areaName, snapshot, retrieved, parse);
      CandidateMeasures(road, areaCode, areaName, snapshot, retrieved, parse);
      FitsContract(candidate.value);
      TravelLimit(candidate.value.travelSeconds, road.dist.value, candidate.value.lengthKm, road.spd.value);
    }
  }

  lemma CandidateBuilt(road: Road, areaCode: string, areaName: string, snapshot: Utc, retrieved: Utc, parse: Parse)
    requires Valid(snapshot) && Valid(retrieved)
    requires Candidate(road, areaCode, areaName, snapshot, retrieved, parse).Some?
    ensures PointList(road.xyList, parse).Some? && road.dist.Some? && road.spd.Some? && road.spd.value > 0.0
    ensures var row := Candidate(road, areaCode, areaName, snapshot, retrieved, parse).value;
            && SeoulShape(row) && row.segmentId == Some(road.linkId) && row.roadName == road.roadName
            && row.areaCode == Some(areaCode) && row.areaName == Some(areaName) && row.speedKph == road.spd.value
  {
    PointsOnEarth(road.xyList, parse);
  }

  lemma CandidateMeasures(road: Road, areaCode: string, areaName: string, snapshot: Utc, retrieved: Utc, parse: Parse)
    requires Valid(snapshot) && Valid(retrieved)
    requires Candidate(road, areaCode, areaName, snapshot, retrieved, parse).Some?
    ensures var row := Candidate(road, areaCode, areaName, snapshot, retrieved, parse).value;
            && road.dist.Some? && row.lengthKm * 1_000.0 == road.dist.value && row.speedKph > 0.0
            && Covers(row.travelSeconds, row.speedKph, row.lengthKm)
  {
  }

  /** What only a row of this connector has. */
  predicate SeoulShape(row: Row) {
    && row.eventId.StableHash? && row.segmentId.Some? && row.areaCode.Some? && row.areaName.Some?
    && row.referenceKph.None? && row.volume.None?
    && Inside(row.centre) && row.start.Some? && Inside(row.start.value) && row.end.Some? && Inside(row.end.value)
  }

  lemma FitsContract(row: Row)
    requires SeoulShape(row)
    ensures Contract(row) <==>
            && ValidSegmentId(row.segmentId.value) && 1 <= |row.roadName| <= 100
            && |row.areaCode.value| <= 30 && |row.areaName.value| <= 100
            && 0.0 < row.lengthKm <= 100.0 && 0.0 < row.speedKph <= 180.0 && 0.0 < row.travelSeconds <= 7_200.0
  {
  }

  lemma TravelLimit(seconds: real, metres: real, km: real, kph: real)
    requires kph > 0.0 && km * 1_000.0 == metres && Covers(seconds, kph, km)
    ensures (seconds > 0.0 <==> metres > 0.0) && (seconds <= 7_200.0 <==> metres <= 2_000.0 * kph)
  {
    NegativeTimes(seconds, kph);
    NegativeTimes(-seconds, kph);
    NegativeTimes(seconds - 7_200.0, kph);
    NegativeTimes(7_200.0 - seconds, kph);
  }

  /**
   Every column of a normalised road: its own link, name, area and coordinates in their order, observed at
   the snapshot and ingested at the retrieval, with no invented reference speed or volume.
   */
  lemma RoadColumns(road: Road, areaCode: string, areaName: string, snapshot: Utc, retrieved: Utc, parse: Parse,
                    row: Row)
    requires Valid(snapshot) && Valid(retrieved)
    ensures NormalizeRoad(road, areaCode, areaName, snapshot, retrieved, parse) == Some(row) ==>
              && row.eventId == StableHash(StableKey(areaCode, road.linkId, snapshot))
              && row.segmentId == Some(road.linkId) && row.roadName == road.roadName
              && row.areaCode == Some(areaCode) && row.areaName == Some(areaName)
              && row.observedAt == EpochMicros(snapshot) && row.ingestedAt == EpochMicros(retrieved)
              && row.referenceKph.None? && row.volume.None?
              && PointList(road.xyList, parse).Some?
              && var points := PointList(road.xyList, parse).value;
                 && |points| >= 2 && row.start == Some(points[0]) && row.end == Some(points[|points| - 1])
                 && IsMean(row.centre, points)
  {
    if NormalizeRoad(road, areaCode, areaName, snapshot, retrieved, parse) == Some(row) {
      MeanOf(PointList(road.xyList, parse).value);
    }
  }

  /** As many times the mean point as there are points is their sum. */
  ghost predicate IsMean(p: Point, points: seq<Point>) {
    && p.longitude * |points| as real == LongitudeSum(points)
    && p.latitude * |points| as real == LatitudeSum(points)
  }

  lemma MeanOf(points: seq<Point>)
    requires points != []
    ensures IsMean(Mean(points), points)
  {
    DividedTimes(LongitudeSum(points), |points| as real);
    DividedTimes(LatitudeSum(points), |points| as real);
  }

  lemma DividedTimes(sum: real, n: real)
    requires n > 0.0
    ensures sum / n * n == sum
  {
  }

  /** A normalised road keeps its length and speed, and its travel time covers that length at that speed. */
  lemma RoadMeasures(road: Road, areaCode: string, areaName: string, snapshot: Utc, retrieved: Utc, parse: Parse,
                     row: Row)
    requires Valid(snapshot) && Valid(retrieved)
    ensures NormalizeRoad(road, areaCode, areaName, snapshot, retrieved, parse) == Some(row) ==>
              && road.dist.Some? && row.lengthKm * 1_000.0 == road.dist.value
              && road.spd.Some? && row.speedKph == road.spd.value > 0.0
              && Covers(row.travelSeconds, row.speedKph, row.lengthKm)
  {
  }

  /** No Seoul row is ever late: its observation time is its ingestion time floored to five minutes. */
  lemma SeoulRowsAreNeverLate(road: Road, areaCode: string, areaName: string, retrieved: Utc, parse: Parse)
    requires Valid(retrieved)
    ensures Valid(Snapshot(retrieved))
    ensures NormalizeRoad(road, areaCode, areaName, Snapshot(retrieved), retrieved, parse).Some? ==>
              !IsLate(NormalizeRoad(road, areaCode, areaName, Snapshot(retrieved), retrieved, parse).value)
  {
    SnapshotIsEpochFloor(retrieved);
    SecondsApart(EpochMicros(Snapshot(retrieved)), EpochMicros(retrieved));
  }

  lemma SecondsApart(a: int, b: int)
    requires a <= b < a + WINDOW_MICROS
    ensures UnixSeconds(b) - UnixSeconds(a) <= 300
  {
    assert a == UnixSeconds(a) * MICROS_PER_SECOND + a % MICROS_PER_SECOND;
    assert b == UnixSeconds(b) * MICROS_PER_SECOND + b % MICROS_PER_SECOND;
  }

  // ---- One area -------------------------------------------------------------------------

  datatype Payload = Payload(areaName: string, areaCode: string, roads: seq<Road>)

  /** The name the payload gives, or the requested one where it gives none. */
  function AreaName(payload: Payload, requested: string): (name: string)
    ensures name == payload.areaName || (payload.areaName == "" && name == requested)
  {
    if payload.areaName != "" then payload.areaName else requested
  }

  function AreaCode(payload: Payload): (code: string)
    ensures code != "" && (payload.areaCode != "" ==> code == payload.areaCode)
  {
    if payload.areaCode != "" then payload.areaCode else "UNKNOWN"
  }

  /** What normalisation keeps of the first n roads, in their order. */
  function Normalized(roads: seq<Road>, normalize: Road -> Option<Row>, n: nat): (rows: seq<Row>)
    requires n <= |roads|
    ensures |rows| <= n
  {
    if n == 0 then []
    else
      var row := normalize(roads[n - 1]);
      Normalized(roads, normalize, n - 1) + if row.Some? then [row.value] else []
  }

  function Normalizer(payload: Payload, requested: string, retrieved: Utc, parse: Parse): Road -> Option<Row>
    requires Valid(retrieved) && Valid(Snapshot(retrieved))
  {
    road => NormalizeRoad(road, AreaCode(payload), AreaName(payload, requested), Snapshot(retrieved), retrieved, parse)
  }

  function AcceptedRows(payload: Payload, requested: string, retrieved: Utc, parse: Parse, n: nat): (rows: seq<Row>)
    requires n <= |payload.roads| && Valid(retrieved) && Valid(Snapshot(retrieved))
    ensures |rows| <= n
  {
    Normalized(payload.roads, Normalizer(payload, requested, retrieved, parse), n)
  }

  /** The road is accepted under a name that fits the contract. */
  predicate Acceptable(road: Road, areaCode: string, snapshot: Utc, retrieved: Utc, parse: Parse)
    requires Valid(snapshot) && Valid(retrieved)
  {
    NormalizeRoad(road, areaCode, "", snapshot, retrieved, parse).Some?
  }

  /** A road is accepted exactly when it would be under a fitting name, and the name fits. */
  lemma AcceptanceOfRoad(road: Road, areaCode: string, areaName: string, snapshot: Utc, retrieved: Utc, other: Utc,
                         parse: Parse)
    requires Valid(snapshot) && Valid(retrieved) && Valid(other)
    ensures NormalizeRoad(road, areaCode, areaName, snapshot, retrieved, parse).Some?
            <==> Acceptable(road, areaCode, snapshot, other, parse) && |areaName| <= 100
    ensures NormalizeRoad(road, areaCode, areaName, snapshot, retrieved, parse).Some? ==>
              NormalizeRoad(road, areaCode, areaName, snapshot, retrieved, parse).value.eventId
              == StableHash(StableKey(areaCode, road.linkId, snapshot))
  {
  }

  /** Road i of the payload is acceptable and has this identity. */
  ghost predicate NamedBy(payload: Payload, retrieved: Utc, parse: Parse, i: nat, id: EventId)
    requires i < |payload.roads| && Valid(retrieved) && Valid(Snapshot(retrieved))
  {
    && Acceptable(payload.roads[i], AreaCode(payload), Snapshot(retrieved), retrieved, parse)
    && id == StableHash(StableKey(AreaCode(payload), payload.roads[i].linkId, Snapshot(retrieved)))
  }

  ghost predicate AcceptableId(payload: Payload, retrieved: Utc, parse: Parse, n: nat, id: EventId)
    requires n <= |payload.roads| && Valid(retrieved) && Valid(Snapshot(retrieved))
  {
    exists i :: 0 <= i < n && NamedBy(payload, retrieved, parse, i, id)
  }

  predicate YieldsId(road: Road, normalize: Road -> Option<Row>, id: EventId) {
    normalize(road).Some? && normalize(road).value.eventId == id
  }

  lemma {:induction false} NormalizedIds(roads: seq<Road>, normalize: Road -> Option<Row>, n: nat, id: EventId)
    requires n <= |roads|
    ensures id in Ids(Normalized(roads, normalize, n)) <==> exists i :: 0 <= i < n && YieldsId(roads[i], normalize, id)
  {
    if n > 0 {
      NormalizedIds(roads, normalize, n - 1, id);
      var before, row := Normalized(roads, normalize, n - 1), normalize(roads[n - 1]);
      assert row.Some? && row.value.eventId == id <==> YieldsId(roads[n - 1], normalize, id);
      if row.Some? {
        var rows := before + [row.value];
        assert rows[..|rows| - 1] == before;
        IdsSnoc(rows);
      }
    }
  }

  lemma AcceptedIds(payload: Payload, requested: string, retrieved: Utc, parse: Parse, n: nat, id: EventId)
    requires n <= |payload.roads| && Valid(retrieved) && Valid(Snapshot(retrieved))
    ensures id in Ids(AcceptedRows(payload, requested, retrieved, parse, n))
            <==> |AreaName(payload, requested)| <= 100 && AcceptableId(payload, retrieved, parse, n, id)
  {
    var normalize := Normalizer(payload, requested, retrieved, parse);
    NormalizedIds(payload.roads, normalize, n, id);
    forall i | 0 <= i < n
      ensures YieldsId(payload.roads[i], normalize, id)
              <==> |AreaName(payload, requested)| <= 100 && NamedBy(payload, retrieved, parse, i, id)
    {
      AcceptanceOfRoad(payload.roads[i], AreaCode(payload), AreaName(payload, requested), Snapshot(retrieved),
                       retrieved, retrieved, parse);
    }
  }

  /** The rows a sync accepts of one area. */
  function SyncRows(payload: Payload, requested: string, retrieved: Utc, parse: Parse): seq<Row>
    requires Valid(retrieved) && Valid(Snapshot(retrieved))
  {
    AcceptedRows(payload, requested, retrieved, parse, |payload.roads|)
  }

  ghost function SyncIds(payload: Payload, requested: string, retrieved: Utc, parse: Parse): set<EventId>
    requires Valid(retrieved) && Valid(Snapshot(retrieved))
  {
    Ids(SyncRows(payload, requested, retrieved, parse))
  }

  lemma AcceptableAnyTime(payload: Payload, t: Utc, u: Utc, parse: Parse, id: EventId)
    requires Valid(t) && Valid(u) && Valid(Snapshot(t)) && Snapshot(t) == Snapshot(u)
    ensures AcceptableId(payload, t, parse, |payload.roads|, id)
            <==> AcceptableId(payload, u, parse, |payload.roads|, id)
  {
    forall i | 0 <= i < |payload.roads|
      ensures NamedBy(payload, t, parse, i, id) <==> NamedBy(payload, u, parse, i, id)
    {
      AcceptanceOfRoad(payload.roads[i], AreaCode(payload), "", Snapshot(t), t, u, parse);
    }
  }

  /**
   Safe overwrite: two syncs that store rows under one bronze key store the same identities, although
   their ingestion times, and perhaps the requested names, differ. An area none of whose roads is
   accepted stores nothing. The 12-digit hash prefix is taken to be free of collisions.
   */
  lemma SafeOverwrite(p: Payload, requested: string, t: Utc, q: Payload, asked: string, u: Utc,
                      parse: Parse, digest: Payload -> string)
    requires Valid(t) && Valid(u) && |digest(p)| == |digest(q)| == 64
    requires digest(p)[..12] == digest(q)[..12] ==> p == q
    ensures Valid(Snapshot(t)) && Valid(Snapshot(u))
    ensures && SnapshotKey(AreaCode(p), Snapshot(t), digest(p)) == SnapshotKey(AreaCode(q), Snapshot(u), digest(q))
            && SyncRows(p, requested, t, parse) != [] && SyncRows(q, asked, u, parse) != [] ==>
              SyncIds(p, requested, t, parse) == SyncIds(q, asked, u, parse)
  {
    SnapshotIsEpochFloor(t);
    SnapshotIsEpochFloor(u);
    if && SnapshotKey(AreaCode(p), Snapshot(t), digest(p)) == SnapshotKey(AreaCode(q), Snapshot(u), digest(q))
       && SyncRows(p, requested, t, parse) != [] && SyncRows(q, asked, u, parse) != []
    {
      SnapshotKeyInjective(AreaCode(p), Snapshot(t), digest(p), AreaCode(q), Snapshot(u), digest(q));
      OverwriteIds(p, requested, t, asked, u, parse);
    }
  }

  lemma StoredNameFits(p: Payload, requested: string, t: Utc, parse: Parse)
    requires Valid(t) && Valid(Snapshot(t)) && SyncRows(p, requested, t, parse) != []
    ensures |AreaName(p, requested)| <= 100
  {
    var rows := SyncRows(p, requested, t, parse);
    assert rows[0] in rows && rows[0].eventId in Ids(rows);
    AcceptedIds(p, requested, t, parse, |p.roads|, rows[0].eventId);
  }

  lemma OverwriteIds(p: Payload, requested: string, t: Utc, asked: string, u: Utc, parse: Parse)
    requires Valid(t) && Valid(u) && Valid(Snapshot(t)) && Snapshot(t) == Snapshot(u)
    requires SyncRows(p, requested, t, parse) != [] && SyncRows(p, asked, u, parse) != []
    ensures SyncIds(p, requested, t, parse) == SyncIds(p, asked, u, parse)
  {
    StoredNameFits(p, requested, t, parse);
    StoredNameFits(p, asked, u, parse);
    forall id
      ensures id in SyncIds(p, requested, t, parse) <==> id in SyncIds(p, asked, u, parse)
    {
      AcceptedIds(p, requested, t, parse, |p.roads|, id);
      AcceptedIds(p, asked, u, parse, |p.roads|, id);
      AcceptableAnyTime(p, t, u, parse, id);
    }
  }

  // ---- Its key ----------------------------------------------------------------------------

  lemma FourWords(a: string, b: string, c: string, d: string)
    requires Plain(a) && Plain(b) && Plain(c) && Plain(d)
    requires b != "" && c != "" && d != "" && b[0] != '/' && c[0] != '/' && d[0] != '/'
    ensures Clean(a + "_" + b + "_" + c + "_" + d)
  {
    CleanPlain(a);
    CleanPlain(b);
    CleanPlain(c);
    CleanPlain(d);
    CleanJoin(a, b);
    CleanJoin(a + "_" + b, c);
    CleanJoin(a + "_" + b + "_" + c, d);
  }

  lemma HeadWords()
    ensures SEOUL_PREFIX + "observed_date=" == "bronze/seoul" + "_" + "citydata/observed" + "_" + "date="
    ensures "/area_code=" == "/area" + "_" + "code="
  {
  }

  lemma KeyHeadClean(snapshot: Utc)
    requires Valid(snapshot)
    ensures Clean(KeyHead(snapshot)) && KeyHead(snapshot)[56] == '='
  {
    var date := Date(snapshot);
    var c := "date=" + date + "/area";
    PlainConcat("date=" + date, "/area");
    FourWords("bronze/seoul", "citydata/observed", c, "code=");
    HeadWords();
    HeadSplits("bronze/seoul" + "_" + "citydata/observed" + "_", "date=", date, "/area", "_", "code=");
    assert KeyHead(snapshot) == "bronze/seoul" + "_" + "citydata/observed" + "_" + c + "_" + "code=";
  }

  lemma HeadSplits(a: string, b: string, date: string, c: string, d: string, e: string)
    ensures (a + b) + date + (c + d + e) == a + (b + date + c) + d + e
  {
  }

  lemma KeyTailClean(snapshot: Utc, hash: string)
    requires Valid(snapshot) && |hash| >= 12 && Plain(hash[..12])
    ensures Clean(KeyTail(snapshot, hash)) && KeyTail(snapshot, hash)[0] == '/'
  {
    PlainConcat("/snapshot-", MinuteStamp(snapshot));
    PlainConcat("/snapshot-" + MinuteStamp(snapshot), "-");
    PlainConcat("/snapshot-" + MinuteStamp(snapshot) + "-", hash[..12]);
    PlainConcat("/snapshot-" + MinuteStamp(snapshot) + "-" + hash[..12], ".parquet");
    CleanPlain(KeyTail(snapshot, hash));
  }

  lemma CleanBetween(head: string, area: string, tail: string)
    requires Clean(head) && head != "" && head[|head| - 1] == '='
    requires Clean(tail) && tail != "" && tail[0] == '/'
    ensures Clean(head + area + tail) <==> Clean(area) && (area != "" ==> area[|area| - 1] != '_')
  {
    var key := head + area + tail;
    if Clean(area) && (area != "" ==> area[|area| - 1] != '_') {
      CleanConcat(head, area);
      CleanConcat(head + area, tail);
    }
    if Clean(key) {
      var n := |head|;
      assert key[n..n + |area|] == area && key[n + |area|] == '/';
      forall i | 0 <= i < |area| && area[i] == '_'
        ensures i + 1 < |area| && area[i + 1] != '_' && area[i + 1] != '/'
      {
        assert key[n + i] == area[i];
        assert i + 1 < |area| ==> key[n + i + 1] == area[i + 1];
      }
    }
  }

  /**
   A snapshot key has its own local file exactly when its area code is clean and does not end in
   an underscore.
   */
  lemma SnapshotKeyClean(area: string, snapshot: Utc, hash: string)
    requires Valid(snapshot) && |hash| >= 12 && Plain(hash[..12])
    ensures Clean(SnapshotKey(area, snapshot, hash)) <==> Clean(area) && (area != "" ==> area[|area| - 1] != '_')
  {
    KeyHeadClean(snapshot);
    KeyTailClean(snapshot, hash);
    CleanBetween(KeyHead(snapshot), area, KeyTail(snapshot, hash));
  }

  // ---- The whole sync -------------------------------------------------------------------

  datatype LakeObject = RawPayload(payload: Payload) | BronzeRows(rows: seq<Row>) | Quarantine(count: nat)

  class Lake {
    var objects: map<string, LakeObject>

    method Upload(key: string, content: LakeObject)
      modifies this
      ensures objects == old(objects)[key := content]
    {
      objects := objects[key := content];
    }
  }

  /**
   What becomes of a requested area: it cannot be fetched; its list of roads holds something that is no
   JSON object, on which the loop over the roads raises, outside the exceptions that reject a single road;
   or it has a payload.
   */
  datatype Response = Unfetched | NotAllObjects | Fetched(payload: Payload)

  /** One requested area, and how many of its uploads succeed before one raises. */
  datatype Area = Area(name: string, response: Response, failsAfter: Option<nat>)

  datatype AreaReport = AreaReport(areaCode: string, areaName: string, sourceRows: nat, acceptedRows: nat,
                                   rejectedRows: nat)

  datatype Report = Report(areas: seq<AreaReport>, inputRows: nat, acceptedRows: nat, rejectedRows: nat)

  function SourceRows(areas: seq<AreaReport>): nat {
    if areas == [] then 0 else SourceRows(areas[..|areas| - 1]) + areas[|areas| - 1].sourceRows
  }

  const LANDING_PREFIX := "landing/seoul_citydata/"
  const QUARANTINE_PREFIX := "quarantine/seoul_citydata/"

  function RawKey(area: string, retrieved: Utc, snapshot: Utc, hash: string): (k: string)
    requires Valid(retrieved) && Valid(snapshot) && |hash| >= 12
    ensures LANDING_PREFIX <= k
  {
    LANDING_PREFIX + RetrievedPath(area, retrieved, snapshot, hash)
  }

  function QuarantineKey(area: string, retrieved: Utc, snapshot: Utc, hash: string): (k: string)
    requires Valid(retrieved) && Valid(snapshot) && |hash| >= 12
    ensures QUARANTINE_PREFIX <= k
  {
    QUARANTINE_PREFIX + RetrievedPath(area, retrieved, snapshot, hash)
  }

  function RetrievedPath(area: string, retrieved: Utc, snapshot: Utc, hash: string): string
    requires Valid(retrieved) && Valid(snapshot) && |hash| >= 12
  {
    "retrieved_date=" + Date(retrieved) + "/area_code=" + area
    + "/snapshot-" + MinuteStamp(snapshot) + "-" + hash[..12] + ".json.gz"
  }

  /** Where payload and rejects go: the day of the retrieval, the area, the snapshot, the hash prefix. */
  lemma RetrievedPathReads(area: string, retrieved: Utc, snapshot: Utc, hash: string)
    requires Valid(retrieved) && Valid(snapshot) && |hash| >= 12
    ensures var path := RetrievedPath(area, retrieved, snapshot, hash);
            var end := |path| - 45;
            && end == 36 + |area| && ShowsDay(path, 15, retrieved) && path[36..end] == area
            && path[end + 10..end + 24] == MinuteStamp(snapshot) && path[end + 25..end + 37] == hash[..12]
  {
    var path, head := RetrievedPath(area, retrieved, snapshot, hash), PathHead(retrieved);
    PathParts(area, retrieved, snapshot, hash);
    KeyParts(head, area, MinuteStamp(snapshot), hash[..12], ".json.gz", 15);
    DayShown(path, 15, retrieved);
  }

  function PathHead(retrieved: Utc): (head: string)
    requires Valid(retrieved)
    ensures |head| == 36 && head[15..25] == Date(retrieved)
  {
    "retrieved_date=" + Date(retrieved) + "/area_code="
  }

  lemma PathParts(area: string, retrieved: Utc, snapshot: Utc, hash: string)
    requires Valid(retrieved) && Valid(snapshot) && |hash| >= 12
    ensures RetrievedPath(area, retrieved, snapshot, hash)
            == PathHead(retrieved) + area + ("/snapshot-" + MinuteStamp(snapshot) + "-" + hash[..12] + ".json.gz")
  {
  }

  lemma KeysDiffer(raw: string, bronze: string, quarantine: string)
    requires LANDING_PREFIX <= raw && SEOUL_PREFIX <= bronze && QUARANTINE_PREFIX <= quarantine
    ensures raw != bronze && bronze != quarantine && raw != quarantine
  {
    assert raw[0] == LANDING_PREFIX[0] == 'l';
    assert bronze[0] == SEOUL_PREFIX[0] == 'b';
    assert quarantine[0] == QUARANTINE_PREFIX[0] == 'q';
  }

  /** A digest cut or padded to the 64 characters of a SHA-256. */
  function Hash(digest: Payload -> string, payload: Payload): (h: string)
    ensures |h| == 64
  {
    var d := digest(payload);
    if |d| >= 64 then d[..64] else d + seq(64 - |d|, _ => '0')
  }

  /** How many roads are rejected among the first n. */
  function Rejects(roads: seq<Road>, normalize: Road -> Option<Row>, n: nat): nat
    requires n <= |roads|
  {
    if n == 0 then 0 else Rejects(roads, normalize, n - 1) + if normalize(roads[n - 1]).None? then 1 else 0
  }

  /** No road is lost: each is kept or rejected. */
  lemma {:induction false} KeptOrRejected(roads: seq<Road>, normalize: Road -> Option<Row>, n: nat)
    requires n <= |roads|
    ensures |Normalized(roads, normalize, n)| + Rejects(roads, normalize, n) == n
  {
    if n > 0 {
      KeptOrRejected(roads, normalize, n - 1);
    }
  }

  /** The loop over the roads of one area: what raises is rejected, the rest is kept in order. */
  method NormalizeArea(roads: seq<Road>, normalize: Road -> Option<Row>) returns (rows: seq<Row>, rejects: nat)
    ensures rows == Normalized(roads, normalize, |roads|) && rejects == Rejects(roads, normalize, |roads|)
    ensures |rows| + rejects == |roads|
  {
    rows, rejects := [], 0;
    for i := 0 to |roads|
      invariant rows == Normalized(roads, normalize, i) && rejects == Rejects(roads, normalize, i)
    {
      var row := normalize(roads[i]);
      if row.Some? {
        rows := rows + [row.value];
      } else {
        rejects := rejects + 1;
      }
    }
    KeptOrRejected(roads, normalize, |roads|);
  }

  // ---- One area ---------------------------------------------------------------------------

  /** The uploads of an area, in their order: payload, accepted rows, rejects. */
  function Uploads(payload: Payload, retrieved: Utc, hash: string, rows: seq<Row>, rejects: nat):
    seq<(string, LakeObject)>
    requires Valid(retrieved) && Valid(Snapshot(retrieved)) && |hash| >= 12
  {
    var code, snapshot := AreaCode(payload), Snapshot(retrieved);
    [(RawKey(code, retrieved, snapshot, hash), RawPayload(payload))]
    + (if rows == [] then [] else [(SnapshotKey(code, snapshot, hash), BronzeRows(rows))])
    + (if rejects == 0 then [] else [(QuarantineKey(code, retrieved, snapshot, hash), Quarantine(rejects))])
  }

  function Applied(lake: map<string, LakeObject>, uploads: seq<(string, LakeObject)>): map<string, LakeObject> {
    if uploads == [] then lake
    else
      var last := uploads[|uploads| - 1];
      Applied(lake, uploads[..|uploads| - 1])[last.0 := last.1]
  }

  /** How many of so many uploads take place. */
  function Stored(failsAfter: Option<nat>, count: nat): (n: nat)
    ensures n <= count
  {
    if failsAfter.Some? && failsAfter.value < count then failsAfter.value else count
  }

  method StoreUploads(uploads: seq<(string, LakeObject)>, failsAfter: Option<nat>, lake: Lake) returns (ok: bool)
    modifies lake
    ensures ok <==> Stored(failsAfter, |uploads|) == |uploads|
    ensures lake.objects == Applied(old(lake.objects), uploads[..Stored(failsAfter, |uploads|)])
  {
    for i := 0 to |uploads|
      invariant i <= Stored(failsAfter, |uploads|)
      invariant lake.objects == Applied(old(lake.objects), uploads[..i])
    {
      if failsAfter == Some(i) {
        return false;
      }
      assert uploads[..i + 1][..i] == uploads[..i];
      lake.Upload(uploads[i].0, uploads[i].1);
    }
    return true;
  }

  /** What an area's completed uploads leave: its three objects, the latter two only if there is cause. */
  lemma UploadsEffect(lake: map<string, LakeObject>, payload: Payload, retrieved: Utc, hash: string, rows: seq<Row>,
                      rejects: nat)
    requires Valid(retrieved) && Valid(Snapshot(retrieved)) && |hash| >= 12
    ensures var code, snapshot := AreaCode(payload), Snapshot(retrieved);
            LeavesThree(lake, Applied(lake, Uploads(payload, retrieved, hash, rows, rejects)),
                        RawKey(code, retrieved, snapshot, hash), payload, SnapshotKey(code, snapshot, hash), rows,
                        QuarantineKey(code, retrieved, snapshot, hash), rejects)
  {
    var code, snapshot := AreaCode(payload), Snapshot(retrieved);
    ThreeStored(lake, RawKey(code, retrieved, snapshot, hash), payload, SnapshotKey(code, snapshot, hash), rows,
                QuarantineKey(code, retrieved, snapshot, hash), rejects);
  }

  ghost predicate LeavesThree(lake: map<string, LakeObject>, after: map<string, LakeObject>, raw: string,
                              payload: Payload,
                              bronze: string, rows: seq<Row>, quarantine: string, rejects: nat) {
    && raw in after && after[raw] == RawPayload(payload)
    && (rows != [] ==> bronze in after && after[bronze] == BronzeRows(rows))
    && (rejects != 0 ==> quarantine in after && after[quarantine] == Quarantine(rejects))
    && forall k | !(k == raw || (k == bronze && rows != []) || (k == quarantine && rejects != 0)) ::
         (k in after <==> k in lake) && (k in lake ==> after[k] == lake[k])
  }

  lemma ThreeStored(lake: map<string, LakeObject>, raw: string, payload: Payload, bronze: string, rows: seq<Row>,
                    quarantine: string, rejects: nat)
    requires LANDING_PREFIX <= raw && SEOUL_PREFIX <= bronze && QUARANTINE_PREFIX <= quarantine
    ensures LeavesThree(lake, Applied(lake, [(raw, RawPayload(payload))]
                                            + (if rows == [] then [] else [(bronze, BronzeRows(rows))])
                                            + (if rejects == 0 then [] else [(quarantine, Quarantine(rejects))])),
                        raw, payload, bronze, rows, quarantine, rejects)
  {
    KeysDiffer(raw, bronze, quarantine);
    ThreeUploads(lake, (raw, RawPayload(payload)), if rows == [] then [] else [(bronze, BronzeRows(rows))],
                 if rejects == 0 then [] else [(quarantine, Quarantine(rejects))]);
  }

  lemma ThreeUploads(lake: map<string, LakeObject>, first: (string, LakeObject),
                     second: seq<(string, LakeObject)>, third: seq<(string, LakeObject)>)
    requires |second| <= 1 && |third| <= 1
    ensures var one := lake[first.0 := first.1];
            var two := if second == [] then one else one[second[0].0 := second[0].1];
            Applied(lake, [first] + second + third) == if third == [] then two else two[third[0].0 := third[0].1]
  {
    var all := [first] + second + third;
    assert [first][..0] == [];
    assert Applied(lake, [first]) == lake[first.0 := first.1];
    if second == [] {
      assert [first] + second == [first];
    } else {
      assert ([first] + second)[..1] == [first];
    }
    if third == [] {
      assert all == [first] + second;
    } else {
      assert all[..|all| - 1] == [first] + second;
    }
  }

  /** The report of one area tells its code, its name, and how many roads came, were kept and were refused. */
  ghost predicate Summarises(report: AreaReport, payload: Payload, requested: string, retrieved: Utc, parse: Parse)
    requires Valid(retrieved) && Valid(Snapshot(retrieved))
  {
    && report.areaCode == AreaCode(payload) && report.areaName == AreaName(payload, requested)
    && report.sourceRows == |payload.roads|
    && report.acceptedRows == |SyncRows(payload, requested, retrieved, parse)|
    && report.rejectedRows == Rejects(payload.roads, Normalizer(payload, requested, retrieved, parse), |payload.roads|)
  }

  lemma SummaryAccounts(report: AreaReport, payload: Payload, requested: string, retrieved: Utc, parse: Parse)
    requires Valid(retrieved) && Valid(Snapshot(retrieved))
    requires Summarises(report, payload, requested, retrieved, parse)
    ensures report.sourceRows == report.acceptedRows + report.rejectedRows
  {
    KeptOrRejected(payload.roads, Normalizer(payload, requested, retrieved, parse), |payload.roads|);
  }

  /** How many rows normalisation keeps over these areas, and how many roads it refuses. */
  ghost function KeptTotal(areas: seq<Area>, retrieved: Utc, parse: Parse): nat
    requires Valid(retrieved) && Valid(Snapshot(retrieved))
  {
    if areas == [] then 0
    else
      var last := areas[|areas| - 1];
      KeptTotal(areas[..|areas| - 1], retrieved, parse)
      + if last.response.Fetched? then |SyncRows(last.response.payload, last.name, retrieved, parse)| else 0
  }

  ghost function RefusedTotal(areas: seq<Area>, retrieved: Utc, parse: Parse): nat
    requires Valid(retrieved) && Valid(Snapshot(retrieved))
  {
    if areas == [] then 0
    else
      var last := areas[|areas| - 1];
      RefusedTotal(areas[..|areas| - 1], retrieved, parse)
      + if last.response.Fetched?
        then Rejects(last.response.payload.roads, Normalizer(last.response.payload, last.name, retrieved, parse),
                     |last.response.payload.roads|)
        else 0
  }

  /** The rows handed to bronze by these uploads. */
  ghost function BronzeCount(uploads: seq<(string, LakeObject)>): nat {
    if uploads == [] then 0
    else
      var last := uploads[|uploads| - 1].1;
      BronzeCount(uploads[..|uploads| - 1]) + if last.BronzeRows? then |last.rows| else 0
  }

  /** The uploads of an area hand over exactly the rows kept. */
  lemma UploadsCarry(payload: Payload, requested: string, retrieved: Utc, parse: Parse, hash: string)
    requires Valid(retrieved) && Valid(Snapshot(retrieved)) && |hash| >= 12
    ensures BronzeCount(AreaUploads(payload, requested, retrieved, parse, hash))
            == |SyncRows(payload, requested, retrieved, parse)|
  {
    var rows := SyncRows(payload, requested, retrieved, parse);
    var rejects := Rejects(payload.roads, Normalizer(payload, requested, retrieved, parse), |payload.roads|);
    var code, snapshot := AreaCode(payload), Snapshot(retrieved);
    CarriedThree((RawKey(code, retrieved, snapshot, hash), RawPayload(payload)),
                 SnapshotKey(code, snapshot, hash), rows, QuarantineKey(code, retrieved, snapshot, hash), rejects);
  }

  lemma CarriedThree(first: (string, LakeObject), bronze: string, rows: seq<Row>, quarantine: string, rejects: nat)
    requires !first.1.BronzeRows?
    ensures BronzeCount([first] + (if rows == [] then [] else [(bronze, BronzeRows(rows))])
                        + (if rejects == 0 then [] else [(quarantine, Quarantine(rejects))])) == |rows|
  {
    var second := if rows == [] then [] else [(bronze, BronzeRows(rows))];
    var third := if rejects == 0 then [] else [(quarantine, Quarantine(rejects))];
    CountConcat([first] + second, third);
    CountConcat([first], second);
    CountOne(first);
    CountOne((bronze, BronzeRows(rows)));
    CountOne((quarantine, Quarantine(rejects)));
  }

  lemma CountOne(upload: (string, LakeObject))
    ensures BronzeCount([upload]) == if upload.1.BronzeRows? then |upload.1.rows| else 0
  {
    assert [upload][..0] == [];
  }

  lemma {:induction false} CountConcat(a: seq<(string, LakeObject)>, b: seq<(string, LakeObject)>)
    ensures BronzeCount(a + b) == BronzeCount(a) + BronzeCount(b)
  {
    if b == [] {
      assert a + b == a;
    } else {
      CountConcat(a, b[..|b| - 1]);
      assert (a + b)[..|a + b| - 1] == a + b[..|b| - 1];
    }
  }

  /** The rows handed to bronze by all uploads of these areas. */
  ghost function UploadedTotal(areas: seq<Area>, retrieved: Utc, parse: Parse, digest: Payload -> string): nat
    requires Valid(retrieved) && Valid(Snapshot(retrieved))
  {
    if areas == [] then 0
    else
      var last := areas[|areas| - 1];
      UploadedTotal(areas[..|areas| - 1], retrieved, parse, digest)
      + if last.response.Fetched?
        then BronzeCount(AreaUploads(last.response.payload, last.name, retrieved, parse,
                                     Hash(digest, last.response.payload)))
        else 0
  }

  lemma {:induction false} UploadedIsKept(areas: seq<Area>, retrieved: Utc, parse: Parse, digest: Payload -> string)
    requires Valid(retrieved) && Valid(Snapshot(retrieved))
    ensures UploadedTotal(areas, retrieved, parse, digest) == KeptTotal(areas, retrieved, parse)
  {
    if areas != [] {
      var last := areas[|areas| - 1];
      UploadedIsKept(areas[..|areas| - 1], retrieved, parse, digest);
      if last.response.Fetched? {
        UploadsCarry(last.response.payload, last.name, retrieved, parse, Hash(digest, last.response.payload));
      }
    }
  }

  lemma TotalsSnoc(areas: seq<Area>, i: nat, retrieved: Utc, parse: Parse, report: AreaReport)
    requires Valid(retrieved) && Valid(Snapshot(retrieved)) && i < |areas| && areas[i].response.Fetched?
    requires Summarises(report, areas[i].response.payload, areas[i].name, retrieved, parse)
    ensures KeptTotal(areas[..i + 1], retrieved, parse) == KeptTotal(areas[..i], retrieved, parse) + report.acceptedRows
    ensures RefusedTotal(areas[..i + 1], retrieved, parse)
            == RefusedTotal(areas[..i], retrieved, parse) + report.rejectedRows
  {
    assert areas[..i + 1][..i] == areas[..i];
  }

  function AreaUploads(payload: Payload, requested: string, retrieved: Utc, parse: Parse, hash: string):
    seq<(string, LakeObject)>
    requires Valid(retrieved) && Valid(Snapshot(retrieved)) && |hash| >= 12
  {
    var normalize := Normalizer(payload, requested, retrieved, parse);
    Uploads(payload, retrieved, hash, Normalized(payload.roads, normalize, |payload.roads|),
            Rejects(payload.roads, normalize, |payload.roads|))
  }

  /** The area is fetched, its roads are objects, and all its uploads take place if there are any. */
  predicate Succeeds(area: Area, retrieved: Utc, upload: bool, parse: Parse, digest: Payload -> string)
    requires Valid(retrieved) && Valid(Snapshot(retrieved))
  {
    && area.response.Fetched?
    && (upload ==>
          var uploads := AreaUploads(area.response.payload, area.name, retrieved, parse,
                                     Hash(digest, area.response.payload));
          Stored(area.failsAfter, |uploads|) == |uploads|)
  }

  /** The lake after an area, complete or not. */
  function AfterArea(lake: map<string, LakeObject>, area: Area, retrieved: Utc, upload: bool, parse: Parse,
                     digest: Payload -> string): map<string, LakeObject>
    requires Valid(retrieved) && Valid(Snapshot(retrieved))
  {
    if !area.response.Fetched? || !upload then lake
    else
      var uploads := AreaUploads(area.response.payload, area.name, retrieved, parse,
                                 Hash(digest, area.response.payload));
      Applied(lake, uploads[..Stored(area.failsAfter, |uploads|)])
  }

  /** The lake after the areas, up to the first that does not succeed. */
  function AfterAreas(lake: map<string, LakeObject>, areas: seq<Area>, retrieved: Utc, upload: bool, parse: Parse,
                      digest: Payload -> string): map<string, LakeObject>
    requires Valid(retrieved) && Valid(Snapshot(retrieved))
    decreases |areas|
  {
    if areas == [] then lake
    else
      var here := AfterArea(lake, areas[0], retrieved, upload, parse, digest);
      if Succeeds(areas[0], retrieved, upload, parse, digest)
      then AfterAreas(here, areas[1..], retrieved, upload, parse, digest)
      else here
  }

  method SyncArea(area: Area, retrieved: Utc, upload: bool, parse: Parse, digest: Payload -> string, lake: Lake)
    returns (report: Option<AreaReport>)
    requires Valid(retrieved) && Valid(Snapshot(retrieved))
    modifies lake
    ensures report.Some? <==> Succeeds(area, retrieved, upload, parse, digest)
    ensures report.Some? ==> Summarises(report.value, area.response.payload, area.name, retrieved, parse)
    ensures lake.objects == AfterArea(old(lake.objects), area, retrieved, upload, parse, digest)
  {
    if !area.response.Fetched? {
      return None;
    }
    var payload := area.response.payload;
    var rows, rejects := NormalizeArea(payload.roads, Normalizer(payload, area.name, retrieved, parse));
    if upload {
      var ok := StoreUploads(Uploads(payload, retrieved, Hash(digest, payload), rows, rejects), area.failsAfter, lake);
      if !ok {
        return None;
      }
    }
    return Some(AreaReport(AreaCode(payload), AreaName(payload, area.name), |payload.roads|, |rows|, rejects));
  }

  /** The reports of the areas handled so far. */
  ghost predicate Summarised(reports: seq<AreaReport>, areas: seq<Area>, retrieved: Utc, parse: Parse)
    requires Valid(retrieved) && Valid(Snapshot(retrieved))
  {
    && |reports| <= |areas|
    && forall i | 0 <= i < |reports| ::
         && areas[i].response.Fetched?
         && Summarises(reports[i], areas[i].response.payload, areas[i].name, retrieved, parse)
  }

  lemma SourceRowsSnoc(reports: seq<AreaReport>, report: AreaReport)
    ensures SourceRows(reports + [report]) == SourceRows(reports) + report.sourceRows
  {
    assert (reports + [report])[..|reports|] == reports;
  }

  lemma SummarisedSnoc(reports: seq<AreaReport>, areas: seq<Area>, retrieved: Utc, parse: Parse, report: AreaReport)
    requires Valid(retrieved) && Valid(Snapshot(retrieved))
    requires Summarised(reports, areas, retrieved, parse) && |reports| < |areas| && areas[|reports|].response.Fetched?
    requires Summarises(report, areas[|reports|].response.payload, areas[|reports|].name, retrieved, parse)
    ensures Summarised(reports + [report], areas, retrieved, parse)
  {
    forall i | 0 <= i < |reports + [report]|
      ensures areas[i].response.Fetched?
      ensures Summarises((reports + [report])[i], areas[i].response.payload, areas[i].name, retrieved, parse)
    {
      assert (reports + [report])[i] == if i < |reports| then reports[i] else report;
    }
  }

  /** Reports and totals of the areas handled so far. */
  ghost predicate Counted(reports: seq<AreaReport>, accepted: nat, rejected: nat, areas: seq<Area>, retrieved: Utc,
                          parse: Parse)
    requires Valid(retrieved) && Valid(Snapshot(retrieved))
  {
    && Summarised(reports, areas, retrieved, parse)
    && SourceRows(reports) == accepted + rejected
    && accepted == KeptTotal(areas[..|reports|], retrieved, parse)
    && rejected == RefusedTotal(areas[..|reports|], retrieved, parse)
  }

  lemma CountedSnoc(reports: seq<AreaReport>, accepted: nat, rejected: nat, areas: seq<Area>, retrieved: Utc,
                    parse: Parse, report: AreaReport)
    requires Valid(retrieved) && Valid(Snapshot(retrieved))
    requires Counted(reports, accepted, rejected, areas, retrieved, parse)
    requires |reports| < |areas| && areas[|reports|].response.Fetched?
    requires Summarises(report, areas[|reports|].response.payload, areas[|reports|].name, retrieved, parse)
    ensures Counted(reports + [report], accepted + report.acceptedRows, rejected + report.rejectedRows, areas,
                    retrieved, parse)
  {
    var i := |reports|;
    SummarisedSnoc(reports, areas, retrieved, parse, report);
    SummaryAccounts(report, areas[i].response.payload, areas[i].name, retrieved, parse);
    TotalsSnoc(areas, i, retrieved, parse, report);
    SourceRowsSnoc(reports, report);
  }

  ghost predicate AllSucceed(areas: seq<Area>, n: nat, retrieved: Utc, upload: bool, parse: Parse,
                             digest: Payload -> string)
    requires n <= |areas| && Valid(retrieved) && Valid(Snapshot(retrieved))
  {
    forall i | 0 <= i < n :: Succeeds(areas[i], retrieved, upload, parse, digest)
  }

  lemma OneArea(lake: map<string, LakeObject>, areas: seq<Area>, i: nat, retrieved: Utc, upload: bool, parse: Parse,
                digest: Payload -> string)
    requires i < |areas| && Valid(retrieved) && Valid(Snapshot(retrieved))
    ensures var here := AfterArea(lake, areas[i], retrieved, upload, parse, digest);
            AfterAreas(lake, areas[i..], retrieved, upload, parse, digest)
            == if Succeeds(areas[i], retrieved, upload, parse, digest)
               then AfterAreas(here, areas[i + 1..], retrieved, upload, parse, digest) else here
    ensures AllSucceed(areas, i + 1, retrieved, upload, parse, digest) <==>
            && AllSucceed(areas, i, retrieved, upload, parse, digest)
            && Succeeds(areas[i], retrieved, upload, parse, digest)
  {
    assert areas[i..][0] == areas[i] && areas[i..][1..] == areas[i + 1..];
  }

  lemma AllSucceedPrefix(areas: seq<Area>, n: nat, retrieved: Utc, upload: bool, parse: Parse,
                         digest: Payload -> string)
    requires n <= |areas| && Valid(retrieved) && Valid(Snapshot(retrieved))
    ensures AllSucceed(areas, |areas|, retrieved, upload, parse, digest) ==>
              AllSucceed(areas, n, retrieved, upload, parse, digest)
  {
  }

  /**
   One sync over all areas. It returns exactly when there is an area and every area could be fetched,
   read and stored; then no source row is unaccounted for, in any area or in total. If it raises, what
   was stored before stays stored.
   */
  method SyncSeoulCitydata(areas: seq<Area>, retrieved: Utc, upload: bool, parse: Parse, digest: Payload -> string,
                           lake: Lake)
    returns (r: Option<Report>)
    requires Valid(retrieved)
    modifies lake
    ensures Valid(Snapshot(retrieved))
    ensures r.Some? <==> areas != [] && AllSucceed(areas, |areas|, retrieved, upload, parse, digest)
    ensures r.Some? ==>
              && |r.value.areas| == |areas| && Summarised(r.value.areas, areas, retrieved, parse)
              && r.value.inputRows == SourceRows(r.value.areas)
              && r.value.inputRows == r.value.acceptedRows + r.value.rejectedRows
              && r.value.acceptedRows == KeptTotal(areas, retrieved, parse)
              && r.value.acceptedRows == UploadedTotal(areas, retrieved, parse, digest)
              && r.value.rejectedRows == RefusedTotal(areas, retrieved, parse)
    ensures lake.objects == AfterAreas(old(lake.objects), areas, retrieved, upload, parse, digest)
  {
    SnapshotIsEpochFloor(retrieved);
    if areas == [] {
      return None;
    }
    var reports: seq<AreaReport> := [];
    var accepted: nat, rejected: nat := 0, 0;
    assert areas[0..] == areas;
    for i := 0 to |areas|
      invariant |reports| == i && Counted(reports, accepted, rejected, areas, retrieved, parse)
      invariant AllSucceed(areas, i, retrieved, upload, parse, digest)
      invariant AfterAreas(old(lake.objects), areas, retrieved, upload, parse, digest)
                == AfterAreas(lake.objects, areas[i..], retrieved, upload, parse, digest)
    {
      OneArea(lake.objects, areas, i, retrieved, upload, parse, digest);
      AllSucceedPrefix(areas, i + 1, retrieved, upload, parse, digest);
      var report := SyncArea(areas[i], retrieved, upload, parse, digest, lake);
      if report.None? {
        return None;
      }
      CountedSnoc(reports, accepted, rejected, areas, retrieved, parse, report.value);
      accepted, rejected := accepted + report.value.acceptedRows, rejected + report.value.rejectedRows;
      reports := reports + [report.value];
    }
    assert areas[..|areas|] == areas;
    UploadedIsKept(areas, retrieved, parse, digest);
    return Some(Report(reports, SourceRows(reports), accepted, rejected));
  }
}
