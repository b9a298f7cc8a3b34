/**
 The file loader: what its SQL classification lets pass into bronze, and the names of its objects.
 Its input has been normalised: texts are trimmed, values that do not convert are missing.
 */
module FileLoader {
  import opened Base
  import opened Observations
  import opened Clock
  import opened KeyFlattening
  import opened Decimal
  import opened BronzeProtocol

  // ---- Rows -------------------------------------------------------------------------------

  /** A normalised row of the file; identity, ingestion time and vehicle type have defaults. */
  datatype FileRow = FileRow(
    eventId: string,
    segmentId: Option<string>,
    roadName: Option<string>,
    latitude: Option<real>,
    longitude: Option<real>,
    observedAt: Option<int>,
    ingestedAt: int,
    vehicleType: string,
    lengthKm: Option<real>,
    speedKph: Option<real>,
    referenceKph: Option<real>,
    volume: Option<int>,
    travelSeconds: Option<real>
  )

  /** Three digits after SEG-. */
  predicate LoaderSegment(s: string) {
    |s| == 7 && s[..4] == "SEG-" && forall i | 4 <= i < 7 :: '0' <= s[i] <= '9'
  }

  /** The segment ids the loader takes are exactly those the road table numbers below a thousand. */
  lemma LoaderSegments(s: string)
    ensures LoaderSegment(s) <==> exists number: nat :: number < 1_000 && s == "SEG-" + Padded(number, 3)
  {
    if LoaderSegment(s) {
      assert forall i | 0 <= i < 3 :: s[4..][i] == s[i + 4];
      ValuePadded(s[4..]);
      assert Power10(3) == 1_000;
      assert s == s[..4] + s[4..];
    }
  }

  /** A condition over a missing value is neither true nor false, and its branch is not taken. */
  function Holds<T>(condition: T -> bool, value: Option<T>): bool {
    value.Some? && condition(value.value)
  }

  predicate MissingOr<T>(value: Option<T>, condition: T -> bool) {
    value.None? || condition(value.value)
  }

  datatype Reason =
    | InvalidSegmentId | MissingRoadName | InvalidLatitude | InvalidLongitude | InvalidObservedAt | InvalidVehicleType
    | InvalidSegmentLength | InvalidSpeed | InvalidReferenceSpeed | InvalidTrafficVolume | InvalidTravelTime

  /** The first branch of the classification that is taken, if any. */
  function RejectReason(r: FileRow): Option<Reason> {
    if Holds((s: string) => !LoaderSegment(s), r.segmentId) then Some(InvalidSegmentId)
    else if MissingOr(r.roadName, (s: string) => s == "") then Some(MissingRoadName)
    else if MissingOr(r.latitude, (x: real) => !(-90.0 <= x <= 90.0)) then Some(InvalidLatitude)
    else if MissingOr(r.longitude, (x: real) => !(-180.0 <= x <= 180.0)) then Some(InvalidLongitude)
    else if r.observedAt.None? then Some(InvalidObservedAt)
    else if r.vehicleType !in ["PASSENGER", "BUS", "TRUCK", "ALL"] then Some(InvalidVehicleType)
    else if MissingOr(r.lengthKm, (x: real) => x <= 0.0 || x > 100.0) then Some(InvalidSegmentLength)
    else if MissingOr(r.speedKph, (x: real) => x <= 0.0 || x > 180.0) then Some(InvalidSpeed)
    else if MissingOr(r.referenceKph, (x: real) => x <= 0.0 || x > 180.0) then Some(InvalidReferenceSpeed)
    else if MissingOr(r.volume, (n: int) => n < 0 || n > 20_000) then Some(InvalidTrafficVolume)
    else if MissingOr(r.travelSeconds, (x: real) => x <= 0.0 || x > 7_200.0) then Some(InvalidTravelTime)
    else None
  }

  predicate Passes(r: FileRow) {
    RejectReason(r).None?
  }

  /** The bronze row of one that passes. */
  function AsRow(r: FileRow): Row
    requires Passes(r)
  {
    Row(Assigned(r.eventId), r.segmentId, r.roadName.value, None, None,
        Point(r.longitude.value, r.latitude.value), None, None, r.observedAt.value, r.ingestedAt,
        r.lengthKm.value, r.speedKph.value, Some(r.referenceKph.value), Some(r.volume.value), r.travelSeconds.value)
  }

  /** The file row that a bronze row came from. */
  function ReadBack(row: Row, vehicleType: string): FileRow
    requires row.eventId.Assigned?
  {
    FileRow(row.eventId.text, row.segmentId, Some(row.roadName), Some(row.centre.latitude), Some(row.centre.longitude),
            Some(row.observedAt), row.ingestedAt, vehicleType, Some(row.lengthKm), Some(row.speedKph), row.referenceKph,
            row.volume, Some(row.travelSeconds))
  }

  /** Every column of a row that passes arrives in bronze, under its own name. */
  lemma AsRowRoundTrip(r: FileRow)
    requires Passes(r)
    ensures AsRow(r).eventId.Assigned? && ReadBack(AsRow(r), r.vehicleType) == r
  {
  }

  /** A column does not hold what it must; only the segment id may be missing. */
  predicate Unsound(r: FileRow, reason: Reason) {
    match reason
    case InvalidSegmentId => r.segmentId.Some? && !LoaderSegment(r.segmentId.value)
    case MissingRoadName => r.roadName.None? || r.roadName.value == ""
    case InvalidLatitude => r.latitude.None? || r.latitude.value < -90.0 || r.latitude.value > 90.0
    case InvalidLongitude => r.longitude.None? || r.longitude.value < -180.0 || r.longitude.value > 180.0
    case InvalidObservedAt => r.observedAt.None?
    case InvalidVehicleType =>
      r.vehicleType != "PASSENGER" && r.vehicleType != "BUS" && r.vehicleType != "TRUCK" && r.vehicleType != "ALL"
    case InvalidSegmentLength => r.lengthKm.None? || !(0.0 < r.lengthKm.value <= 100.0)
    case InvalidSpeed => r.speedKph.None? || !(0.0 < r.speedKph.value <= 180.0)
    case InvalidReferenceSpeed => r.referenceKph.None? || !(0.0 < r.referenceKph.value <= 180.0)
    case InvalidTrafficVolume => r.volume.None? || !(0 <= r.volume.value <= 20_000)
    case InvalidTravelTime => r.travelSeconds.None? || !(0.0 < r.travelSeconds.value <= 7_200.0)
  }

  /** A row passes exactly when all its columns are sound, and the reason of a reject names an unsound one. */
  lemma ReasonNamesItsColumn(r: FileRow)
    ensures RejectReason(r).Some? ==> Unsound(r, RejectReason(r).value)
    ensures Passes(r) <==> forall reason :: !Unsound(r, reason)
  {
    if Passes(r) {
      forall reason
        ensures !Unsound(r, reason)
      {
        match reason
        case InvalidSegmentId => {}
        case _ => {}
      }
    } else {
      assert Unsound(r, RejectReason(r).value);
    }
  }

  /**
   Not every row the loader lets pass fits the warehouse: a missing segment id is not noticed, and the
   rounded speed index may be zero. These two are the only causes.
   */
  lemma LoaderRowFitsWarehouse(r: FileRow)
    requires Passes(r)
    ensures Checks(AsRow(r)) <==>
            r.segmentId.Some? && 2_000_000.0 * r.speedKph.value >= r.referenceKph.value
  {
    var speed, reference := r.speedKph.value, r.referenceKph.value;
    RoundSixPositive(speed / reference);
    ScaledComparison(speed, reference);
  }

  /** Nor does every one meet the contract of the Kafka path. */
  lemma LoaderRowMeetsContract(r: FileRow)
    requires Passes(r)
    ensures Contract(AsRow(r)) <==>
            r.segmentId.Some? && |r.roadName.value| <= 100 && 8 <= |r.eventId| <= 80
  {
    if r.segmentId.Some? {
      assert r.segmentId.value[..4] == "SEG-" && r.segmentId.value[0] == "SEG-"[0];
      assert forall i | 1 <= i < 4 :: r.segmentId.value[i] == "SEG-"[i];
    }
  }

  /** Take the segment id away from a row that passes: it still passes, and the warehouse refuses it. */
  lemma MissingSegmentSlipsThrough(r: FileRow)
    requires Passes(r)
    ensures Passes(r.(segmentId := None)) && !Checks(AsRow(r.(segmentId := None)))
  {
  }

  // ---- Object names -----------------------------------------------------------------------

  const SOURCE_SYSTEMS := ["TMAP", "TCS", "VDS", "GPS"]

  /** Files are stored under the prefix of the batches, by source system instead of hour. */
  function LoaderKey(now: Utc, source: string, fingerprint: string): string
    requires Valid(now) && |fingerprint| >= 16
  {
    BATCH_PREFIX + "ingest_date=" + Date(now) + "/source_system=" + source + "/file-" + fingerprint[..16] + ".parquet"
  }

  /** No file of the loader is taken for a batch, and none takes the place of one. */
  lemma LoaderKeyIsNoBatch(now: Utc, source: string, fingerprint: string)
    requires Valid(now) && |fingerprint| >= 16
    ensures !IsBatchKey(LoaderKey(now, source, fingerprint))
  {
    var key := LoaderKey(now, source, fingerprint);
    LoaderKeyFormat(now, source, fingerprint);
    forall t, f | Valid(t)
      ensures key != BatchKey(t, f)
    {
      BatchKeyFormat(t, f);
      assert BatchKey(t, f)[51] == BatchKey(t, f)[50..56][1];
    }
  }

  lemma LoaderKeyFormat(now: Utc, source: string, fingerprint: string)
    requires Valid(now) && |fingerprint| >= 16
    ensures |LoaderKey(now, source, fingerprint)| > 51 && LoaderKey(now, source, fingerprint)[51] == 's'
  {
    var start, middle := BATCH_PREFIX + "ingest_date=" + Date(now), "/source_system=";
    var rest := source + "/file-" + fingerprint[..16] + ".parquet";
    assert LoaderKey(now, source, fingerprint) == start + middle + rest;
    assert |start| == 50 && (start + middle + rest)[51] == middle[1];
  }

  /** A loader key tells the day, the source system and the fingerprint of its file. */
  lemma LoaderKeyReads(now: Utc, source: string, fingerprint: string)
    requires Valid(now) && |fingerprint| >= 16
    ensures var key := LoaderKey(now, source, fingerprint);
            && |key| == 95 + |source| && ShowsDay(key, 40, now) && key[65..65 + |source|] == source
            && key[71 + |source|..87 + |source|] == fingerprint[..16]
  {
    var head := BATCH_PREFIX + "ingest_date=" + Date(now);
    assert |head| == 50 && head[40..50] == Date(now);
    LoaderKeyParts(head, source, fingerprint[..16]);
    DayShown(LoaderKey(now, source, fingerprint), 40, now);
  }

  lemma LoaderKeyParts(head: string, source: string, print16: string)
    requires |head| == 50 && |print16| == 16
    ensures var key := head + "/source_system=" + source + "/file-" + print16 + ".parquet";
            && |key| == 95 + |source| && key[40..50] == head[40..50] && key[65..65 + |source|] == source
            && key[71 + |source|..87 + |source|] == print16
  {
  }

  function KeyMiddle(now: Utc): string
    requires Valid(now)
  {
    Date(now) + "/source"
  }

  function KeyEnd(source: string, fingerprint: string): string
    requires |fingerprint| >= 16
  {
    "system=" + source + "/file-" + fingerprint[..16] + ".parquet"
  }

  /** The underscores of a loader key stand inside words, so it never confuses the flattening. */
  lemma LoaderKeyClean(now: Utc, source: string, fingerprint: string)
    requires Valid(now) && |fingerprint| >= 16 && Plain(source) && Plain(fingerprint[..16])
    ensures Clean(LoaderKey(now, source, fingerprint))
  {
    PrefixClean();
    var head := BATCH_PREFIX + "ingest_date=";
    PlainConcat(Date(now), "/source");
    CleanPlain(KeyMiddle(now));
    CleanConcat(head, KeyMiddle(now));
    PlainConcat("system=", source);
    PlainConcat("system=" + source, "/file-");
    PlainConcat("system=" + source + "/file-", fingerprint[..16]);
    PlainConcat("system=" + source + "/file-" + fingerprint[..16], ".parquet");
    CleanPlain(KeyEnd(source, fingerprint));
    CleanJoin(head + KeyMiddle(now), KeyEnd(source, fingerprint));
    assert LoaderKey(now, source, fingerprint) == head + KeyMiddle(now) + "_" + KeyEnd(source, fingerprint);
  }

  lemma SourceSystemsPlain(source: string)
    requires source in SOURCE_SYSTEMS
    ensures Plain(source)
  {
  }
}
