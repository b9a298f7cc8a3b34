/**
 The fault generator: a stream of observations with duplicates, late and invalid events mixed
 in. Every random choice is an argument; results hold for every outcome of them.
 */
module Simulator {
  import opened Base
  import opened Observations
  import opened Decimal

  datatype Segment = Segment(
    number: nat, roadName: string, latitude: real, longitude: real, lengthKm: real, referenceKph: real)

  function SegmentId(s: Segment): string {
    "SEG-" + Padded(s.number, 3)
  }

  const ROAD_SEGMENTS: seq<Segment> := [
    Segment(1, "강변북로·마포", 37.5498, 126.9368, 4.8, 80.0),
    Segment(2, "강변북로·용산", 37.5298, 126.9648, 5.1, 80.0),
    Segment(3, "강변북로·성수", 37.5365, 127.0559, 4.4, 80.0),
    Segment(4, "올림픽대로·여의도", 37.5185, 126.9245, 5.6, 80.0),
    Segment(5, "올림픽대로·반포", 37.5111, 127.0049, 4.2, 80.0),
    Segment(6, "올림픽대로·잠실", 37.5156, 127.1001, 5.0, 80.0),
    Segment(7, "경부고속도로·서초", 37.4766, 127.0210, 6.2, 90.0),
    Segment(8, "서부간선도로·가산", 37.4816, 126.8826, 4.7, 70.0),
    Segment(9, "서부간선도로·구로", 37.4935, 126.9015, 3.9, 70.0),
    Segment(10, "내부순환로·홍제", 37.5890, 126.9430, 4.5, 70.0),
    Segment(11, "내부순환로·성북", 37.6020, 127.0250, 5.3, 70.0),
    Segment(12, "동부간선도로·성동", 37.5612, 127.0371, 4.1, 70.0),
    Segment(13, "동부간선도로·중랑", 37.5850, 127.0692, 5.8, 70.0),
    Segment(14, "북부간선도로·신내", 37.6130, 127.1000, 4.6, 70.0),
    Segment(15, "남부순환로·사당", 37.4766, 126.9816, 3.5, 60.0),
    Segment(16, "남부순환로·대치", 37.4979, 127.0550, 4.0, 60.0),
    Segment(17, "공항대로·마곡", 37.5669, 126.8274, 4.9, 60.0),
    Segment(18, "통일로·은평", 37.6050, 126.9220, 3.7, 60.0),
    Segment(19, "양재대로·송파", 37.4900, 127.1000, 4.3, 60.0),
    Segment(20, "한강대로·서울역", 37.5547, 126.9706, 2.8, 50.0)
  ]

  /** What the contract needs of the table. */
  predicate Drivable(s: Segment) {
    && 1 <= |s.roadName| <= 100
    && 37.0 <= s.latitude <= 38.0 && 126.0 <= s.longitude <= 128.0
    && 2.8 <= s.lengthKm <= 6.2
    && 50.0 <= s.referenceKph <= 90.0
  }

  lemma AllDrivable()
    ensures |ROAD_SEGMENTS| == 20
    ensures forall i | 0 <= i < |ROAD_SEGMENTS| :: Drivable(ROAD_SEGMENTS[i])
  {
  }

  /** Where the speeds of a fresh simulator start: a random share of each reference speed. */
  function InitialSpeeds(factors: seq<real>): (speeds: seq<real>)
    requires |factors| == |ROAD_SEGMENTS|
    ensures |speeds| == |ROAD_SEGMENTS|
  {
    seq(|ROAD_SEGMENTS|, i requires 0 <= i < |ROAD_SEGMENTS| => ROAD_SEGMENTS[i].referenceKph * factors[i])
  }

  lemma InitialSpeedsBounded(factors: seq<real>)
    requires |factors| == |ROAD_SEGMENTS| && forall f | f in factors :: 0.22 <= f <= 1.02
    ensures forall i | 0 <= i < |ROAD_SEGMENTS| :: InitialSpeeds(factors)[i] <= 100.8
  {
    AllDrivable();
    forall i | 0 <= i < |ROAD_SEGMENTS|
      ensures InitialSpeeds(factors)[i] <= 100.8
    {
      assert Drivable(ROAD_SEGMENTS[i]) && factors[i] in factors;
      var reference := ROAD_SEGMENTS[i].referenceKph;
      assert reference * factors[i] <= reference * 1.02;
    }
  }

  /** The random choices of one event. */
  datatype Draw = Draw(
    duplicate: real, choice: nat, delta: real, volume: int,
    late: real, lateMinutes: int, invalid: real)

  predicate Possible(d: Draw) {
    && 0.0 <= d.duplicate < 1.0 && 0.0 <= d.late < 1.0 && 0.0 <= d.invalid < 1.0
    && -5.5 <= d.delta <= 5.5
    && 120 <= d.volume <= 1_900
    && 16 <= d.lateMinutes <= 90
  }

  function RealMax(a: real, b: real): real {
    if a >= b then a else b
  }

  function RealMin(a: real, b: real): real {
    if a <= b then a else b
  }

  /** The nearest whole number, the even one of two. */
  function NearestEven(x: real): int {
    var below := x.Floor;
    var part := x - below as real;
    if part < 0.5 then below
    else if part > 0.5 then below + 1
    else if below % 2 == 0 then below else below + 1
  }

  lemma NearestEvenIsNear(x: real)
    ensures -0.5 <= NearestEven(x) as real - x <= 0.5
    ensures NearestEven(x) as real - x == 0.5 || NearestEven(x) as real - x == -0.5 ==> NearestEven(x) % 2 == 0
  {
  }

  /** Rounding to three decimals, ties to the even neighbour. */
  function RoundThree(x: real): real {
    NearestEven(x * 1_000.0) as real / 1_000.0
  }

  lemma RoundThreeNear(x: real)
    ensures x - 0.0005 <= RoundThree(x) <= x + 0.0005
  {
    NearestEvenIsNear(x * 1_000.0);
  }

  /** A number of thousandths, the even one where two are equally near. */
  lemma RoundThreeExact(x: real) returns (units: int)
    ensures RoundThree(x) * 1_000.0 == units as real
    ensures units as real - x * 1_000.0 == 0.5 || units as real - x * 1_000.0 == -0.5 ==> units % 2 == 0
  {
    units := NearestEven(x * 1_000.0);
    NearestEvenIsNear(x * 1_000.0);
  }

  /** The identity of event number `index` of a seed. */
  function SimulatedId(seed: string, index: nat): EventId {
    Uuid5("mobility-flow-traffic:" + seed + ":" + Render(index))
  }

  /** It tells both, whatever the seed looks like: the number after the last colon is the index. */
  lemma SimulatedIdInjective(seed: string, i: nat, other: string, j: nat)
    ensures SimulatedId(seed, i) == SimulatedId(other, j) <==> seed == other && i == j
  {
    if SimulatedId(seed, i) == SimulatedId(other, j) {
      var head := "mobility-flow-traffic:";
      var x, y := head + seed + ":" + Render(i), head + other + ":" + Render(j);
      assert x == y;
      LastColon(head + seed, Render(i), head + other, Render(j));
      assert (head + seed)[|head|..] == seed && (head + other)[|head|..] == other;
      RenderInjective(i, j);
    }
  }

  lemma LastColon(a: string, digits: string, b: string, others: string)
    requires AllDigits(digits) && AllDigits(others) && a + ":" + digits == b + ":" + others
    ensures a == b && digits == others
  {
    HeadNoLonger(a, digits, b, others);
    HeadNoLonger(b, others, a, digits);
    var x, y := a + ":" + digits, b + ":" + others;
    assert x[..|a|] == a && y[..|b|] == b && x[|a| + 1..] == digits && y[|b| + 1..] == others;
  }

  lemma HeadNoLonger(a: string, digits: string, b: string, others: string)
    requires AllDigits(others) && a + ":" + digits == b + ":" + others
    ensures |a| <= |b|
  {
    assert (a + ":" + digits)[|a|] == ':';
    assert forall n: nat | |b| < n < |b + ":" + others| :: (b + ":" + others)[n] == others[n - |b| - 1];
  }

  /** A segment's id tells its number. */
  lemma SegmentIdReads(s: Segment)
    requires s.number < 1_000
    ensures |SegmentId(s)| == 7 && SegmentId(s)[..4] == "SEG-" && Value(SegmentId(s)[4..]) == s.number
  {
    assert Power10(3) == 1_000;
    PaddedValue(s.number, 3);
  }

  function NextSpeed(segment: Segment, speed: real, delta: real): real {
    RealMin(segment.referenceKph * 1.12, RealMax(4.0, speed + delta))
  }

  function Observed(seed: string, index: nat, segment: Segment, speed: real, volume: int,
                    observedAt: int, ingestedAt: int): Row
    requires speed != 0.0
  {
    Row(SimulatedId(seed, index), Some(SegmentId(segment)), segment.roadName, None, None,
        Point(segment.longitude, segment.latitude), None, None, observedAt, ingestedAt,
        RoundThree(segment.lengthKm), RoundThree(speed), Some(RoundThree(segment.referenceKph)), Some(volume),
        RoundThree(segment.lengthKm / speed * 3_600.0))
  }

  /** The drift is kept between walking pace and a little over the reference speed. */
  lemma NextSpeedClamps(segment: Segment, speed: real, delta: real)
    requires Drivable(segment)
    ensures 4.0 <= NextSpeed(segment, speed, delta) <= segment.referenceKph * 1.12
    ensures 4.0 <= speed + delta <= segment.referenceKph * 1.12 ==> NextSpeed(segment, speed, delta) == speed + delta
    ensures speed + delta < 4.0 ==> NextSpeed(segment, speed, delta) == 4.0
    ensures speed + delta > segment.referenceKph * 1.12 ==>
              NextSpeed(segment, speed, delta) == segment.referenceKph * 1.12
  {
  }

  /** Every column of an observation shows the segment, the choices and the times it was made of. */
  ghost predicate ShowsObservation(r: Row, seed: string, index: nat, segment: Segment, speed: real, volume: int,
                                   observedAt: int, ingestedAt: int) {
    && r.eventId == SimulatedId(seed, index) && r.segmentId == Some(SegmentId(segment))
    && r.roadName == segment.roadName && r.areaCode.None? && r.areaName.None? && r.start.None? && r.end.None?
    && r.centre.latitude == segment.latitude && r.centre.longitude == segment.longitude
    && r.observedAt == observedAt && r.ingestedAt == ingestedAt && r.volume == Some(volume)
    && Near(r.lengthKm, segment.lengthKm) && Near(r.speedKph, speed)
    && r.referenceKph.Some? && Near(r.referenceKph.value, segment.referenceKph)
    && speed != 0.0 && Near(r.travelSeconds, segment.lengthKm / speed * 3_600.0)
  }

  predicate Near(rounded: real, x: real) {
    x - 0.0005 <= rounded <= x + 0.0005
  }

  lemma ObservedShows(seed: string, index: nat, segment: Segment, speed: real, volume: int,
                      observedAt: int, ingestedAt: int)
    requires speed != 0.0
    ensures ShowsObservation(Observed(seed, index, segment, speed, volume, observedAt, ingestedAt),
                             seed, index, segment, speed, volume, observedAt, ingestedAt)
  {
    RoundThreeNear(segment.lengthKm);
    RoundThreeNear(speed);
    RoundThreeNear(segment.referenceKph);
    RoundThreeNear(segment.lengthKm / speed * 3_600.0);
  }

  lemma TravelTime(length: real, speed: real)
    requires 2.8 <= length <= 6.2 && 4.0 <= speed <= 100.8
    ensures 72.0 <= length / speed * 3_600.0 <= 5_580.0
  {
    assert length / speed * speed == length;
    Hours(length, speed, length / speed);
  }

  lemma Hours(length: real, speed: real, hours: real)
    requires 2.8 <= length <= 6.2 && 4.0 <= speed <= 100.8 && hours * speed == length
    ensures 0.02 <= hours <= 1.55
  {
    Scaled(0.02, hours, speed, 0.02 * speed, length);
    Scaled(hours, 1.55, speed, length, 1.55 * speed);
  }

  lemma Scaled(a: real, b: real, factor: real, low: real, high: real)
    requires factor > 0.0
    requires low == a * factor && high == b * factor && low <= high
    ensures a <= b
  {
    assert (b - a) * factor == high - low;
    NegativeProduct(b - a, factor);
  }

  lemma NegativeProduct(x: real, factor: real)
    requires factor > 0.0
    ensures x < 0.0 ==> x * factor < 0.0
  {
  }

  /** Despite drift, clamping and rounding, what is not made invalid meets the contract. */
  lemma ObservedMeetsContract(seed: string, index: nat, segment: Segment, speed: real, volume: int,
                              observedAt: int, ingestedAt: int)
    requires Drivable(segment) && 4.0 <= speed <= segment.referenceKph * 1.12 && 120 <= volume <= 1_900
    ensures Contract(Observed(seed, index, segment, speed, volume, observedAt, ingestedAt))
  {
    var id := SegmentId(segment);
    assert |id| == 7 && id[0] == 'S' && id[1] == 'E' && id[2] == 'G' && id[3] == '-';
    assert AllDigits(Padded(segment.number, 3));
    assert forall i | 4 <= i < 7 :: id[i] == Padded(segment.number, 3)[i - 4];
    RoundThreeNear(segment.lengthKm);
    RoundThreeNear(speed);
    RoundThreeNear(segment.referenceKph);
    TravelTime(segment.lengthKm, speed);
    RoundThreeNear(segment.lengthKm / speed * 3_600.0);
  }

  lemma LateExactlyWhenShifted(row: Row, minutes: int)
    requires row.observedAt == row.ingestedAt - minutes * 60 * MICROS_PER_SECOND
    requires minutes == 0 || 16 <= minutes
    ensures IsLate(row) <==> minutes != 0
  {
    var seconds := UnixSeconds(row.ingestedAt);
    var part := row.ingestedAt % MICROS_PER_SECOND;
    assert row.ingestedAt == seconds * MICROS_PER_SECOND + part;
    assert row.observedAt == (seconds - 60 * minutes) * MICROS_PER_SECOND + part;
    assert UnixSeconds(row.observedAt) == seconds - 60 * minutes;
  }

  function Position(index: nat): (i: nat)
    ensures i < |ROAD_SEGMENTS|
  {
    index % |ROAD_SEGMENTS|
  }

  function DrawnSpeed(speeds: seq<real>, index: nat, d: Draw): (speed: real)
    requires |speeds| == |ROAD_SEGMENTS|
    ensures speed != 0.0
  {
    AllDrivable();
    assert Drivable(ROAD_SEGMENTS[Position(index)]);
    NextSpeed(ROAD_SEGMENTS[Position(index)], speeds[Position(index)], d.delta)
  }

  /** The event these choices make of position `index`. */
  function Drawn(seed: string, startTime: int, speeds: seq<real>, index: nat, lateRate: real, invalidRate: real,
                 d: Draw): Row
    requires |speeds| == |ROAD_SEGMENTS|
  {
    var ingestedAt := startTime + index * MICROS_PER_SECOND;
    var event := Observed(seed, index, ROAD_SEGMENTS[Position(index)], DrawnSpeed(speeds, index, d), d.volume,
                          if d.late < lateRate then ingestedAt - d.lateMinutes * 60 * MICROS_PER_SECOND else ingestedAt,
                          ingestedAt);
    if d.invalid < invalidRate then event.(speedKph := -1.0) else event
  }

  /** What was injected at one position of the stream. */
  datatype Kind = Duplicate | Genuine(late: bool) | Invalid(late: bool)

  /** What the choices of a position make of it. */
  function KindOf(d: Draw, hadHistory: bool, duplicateRate: real, lateRate: real, invalidRate: real): Kind {
    if hadHistory && d.duplicate < duplicateRate then Duplicate
    else if d.invalid < invalidRate then Invalid(d.late < lateRate)
    else Genuine(d.late < lateRate)
  }

  /** There was an event to repeat before position i. */
  ghost predicate HadHistory(history: seq<Row>, kinds: seq<Kind>, i: nat)
    requires i <= |kinds|
  {
    history != [] || exists j :: 0 <= j < i && kinds[j].Genuine?
  }

  /** Every position is what its draw says. */
  ghost predicate FollowsDraws(history: seq<Row>, kinds: seq<Kind>, draws: seq<Draw>, duplicateRate: real,
                               lateRate: real, invalidRate: real) {
    && |kinds| <= |draws|
    && forall i: nat | i < |kinds| ::
         kinds[i] == KindOf(draws[i], HadHistory(history, kinds, i), duplicateRate, lateRate, invalidRate)
  }

  lemma DrawsExtend(history: seq<Row>, kinds: seq<Kind>, draws: seq<Draw>, duplicateRate: real, lateRate: real,
                    invalidRate: real, kind: Kind)
    requires FollowsDraws(history, kinds, draws, duplicateRate, lateRate, invalidRate) && |kinds| < |draws|
    requires kind == KindOf(draws[|kinds|], HadHistory(history, kinds, |kinds|), duplicateRate, lateRate, invalidRate)
    ensures FollowsDraws(history, kinds + [kind], draws, duplicateRate, lateRate, invalidRate)
    ensures HadHistory(history, kinds + [kind], |kinds| + 1) <==>
            HadHistory(history, kinds, |kinds|) || kind.Genuine?
  {
    var more := kinds + [kind];
    forall i: nat | i <= |kinds|
      ensures HadHistory(history, more, i) <==> HadHistory(history, kinds, i)
    {
      assert forall j | 0 <= j < i :: more[j] == kinds[j];
    }
    assert more[|kinds|] == kind;
  }

  /** Event i is what its kind says, given the history that preceded the stream. */
  ghost predicate Faithful(seed: string, history: seq<Row>, events: seq<Row>, kinds: seq<Kind>, i: nat)
    requires |events| == |kinds| && i < |events|
  {
    match kinds[i]
    case Duplicate =>
      events[i] in history || exists j :: 0 <= j < i && kinds[j].Genuine? && events[j] == events[i]
    case Genuine(late) =>
      events[i].eventId == SimulatedId(seed, i) && Contract(events[i]) && (IsLate(events[i]) <==> late)
    case Invalid(late) =>
      events[i].eventId == SimulatedId(seed, i) && !Contract(events[i]) && (IsLate(events[i]) <==> late)
  }

  ghost predicate Stream(seed: string, history: seq<Row>, events: seq<Row>, kinds: seq<Kind>) {
    |events| == |kinds| && forall i: nat | i < |events| :: Faithful(seed, history, events, kinds, i)
  }

  ghost function Duplicates(kinds: seq<Kind>): nat {
    if kinds == [] then 0
    else Duplicates(kinds[..|kinds| - 1]) + if kinds[|kinds| - 1].Duplicate? then 1 else 0
  }

  ghost function Invalids(kinds: seq<Kind>): nat {
    if kinds == [] then 0
    else Invalids(kinds[..|kinds| - 1]) + if kinds[|kinds| - 1].Invalid? then 1 else 0
  }

  ghost function Lates(kinds: seq<Kind>): nat {
    if kinds == [] then 0
    else
      var k := kinds[|kinds| - 1];
      Lates(kinds[..|kinds| - 1]) + if !k.Duplicate? && k.late then 1 else 0
  }

  // ---- The history duplicates are drawn from --------------------------------------------------

  /** The events of the stream that were neither repeated nor made invalid. */
  ghost function Genuines(events: seq<Row>, kinds: seq<Kind>): seq<Row>
    requires |events| == |kinds|
  {
    if events == [] then []
    else
      var n := |events| - 1;
      Genuines(events[..n], kinds[..n]) + if kinds[n].Genuine? then [events[n]] else []
  }

  function Latest(rows: seq<Row>): seq<Row> {
    if |rows| <= 500 then rows else rows[|rows| - 500..]
  }

  /** The last 500 of the earlier history and the genuine events since. */
  ghost function Memory(history: seq<Row>, events: seq<Row>, kinds: seq<Kind>): seq<Row>
    requires |events| == |kinds|
  {
    Latest(history + Genuines(events, kinds))
  }

  /** The history with one more event; the oldest makes room. */
  function Remembering(previous: seq<Row>, event: Row): seq<Row> {
    if |previous| < 500 then previous + [event] else previous[1..] + [event]
  }

  lemma MemoryExtends(history: seq<Row>, events: seq<Row>, kinds: seq<Kind>, event: Row, kind: Kind)
    requires |events| == |kinds| && |history| <= 500
    ensures Memory(history, events + [event], kinds + [kind])
            == if kind.Genuine? then Remembering(Memory(history, events, kinds), event)
               else Memory(history, events, kinds)
  {
    var n := |events|;
    assert (events + [event])[..n] == events && (kinds + [kind])[..n] == kinds;
    var all := history + Genuines(events, kinds);
    if kind.Genuine? {
      assert history + (Genuines(events, kinds) + [event]) == all + [event];
    } else {
      assert Genuines(events, kinds) + [] == Genuines(events, kinds);
    }
  }

  lemma {:induction false} GenuinesOrigin(events: seq<Row>, kinds: seq<Kind>, r: Row)
    requires |events| == |kinds| && r in Genuines(events, kinds)
    ensures exists j :: 0 <= j < |events| && kinds[j].Genuine? && events[j] == r
  {
    var n := |events| - 1;
    if r in Genuines(events[..n], kinds[..n]) {
      GenuinesOrigin(events[..n], kinds[..n], r);
      var j :| 0 <= j < n && kinds[..n][j].Genuine? && events[..n][j] == r;
      assert kinds[j].Genuine? && events[j] == r;
    }
  }

  lemma MemoryOrigin(history: seq<Row>, events: seq<Row>, kinds: seq<Kind>, r: Row)
    requires |events| == |kinds| && r in Memory(history, events, kinds)
    ensures Remembered(history, events, kinds, r)
  {
    if r !in history {
      assert r in history + Genuines(events, kinds);
      GenuinesOrigin(events, kinds, r);
    }
  }

  /** Every duplicate repeats the row its draw chose of the history at that moment. */
  ghost predicate RepeatsDrawn(history: seq<Row>, events: seq<Row>, kinds: seq<Kind>, draws: seq<Draw>)
    requires |events| == |kinds| <= |draws|
  {
    forall i: nat | i < |events| && kinds[i].Duplicate? :: Repeats(history, events, kinds, draws, i)
  }

  ghost predicate Repeats(history: seq<Row>, events: seq<Row>, kinds: seq<Kind>, draws: seq<Draw>, i: nat)
    requires |events| == |kinds| <= |draws| && i < |events|
  {
    var memory := Memory(history, events[..i], kinds[..i]);
    memory != [] && events[i] == memory[draws[i].choice % |memory|]
  }

  lemma RepeatsExtend(history: seq<Row>, events: seq<Row>, kinds: seq<Kind>, draws: seq<Draw>, event: Row, kind: Kind)
    requires |events| == |kinds| < |draws| && RepeatsDrawn(history, events, kinds, draws)
    requires var memory := Memory(history, events, kinds);
             kind.Duplicate? ==> memory != [] && event == memory[draws[|events|].choice % |memory|]
    ensures RepeatsDrawn(history, events + [event], kinds + [kind], draws)
  {
    var es, ks := events + [event], kinds + [kind];
    forall i: nat | i < |es| && ks[i].Duplicate?
      ensures Repeats(history, es, ks, draws, i)
    {
      assert es[..i] == events[..i] && ks[..i] == kinds[..i];
      if i < |events| {
        assert Repeats(history, events, kinds, draws, i);
      } else {
        assert events[..i] == events && kinds[..i] == kinds;
      }
    }
  }

  class MobilityEventSimulator {
    const seed: string
    const startTime: int
    var segmentSpeed: seq<real>
    var duplicatesInjected: nat
    var lateInjected: nat
    var invalidInjected: nat
    var previous: seq<Row>

    /** Speeds stay drivable; the history is bounded and holds contract-valid events only. */
    ghost predicate Valid()
      reads this
    {
      && |segmentSpeed| == |ROAD_SEGMENTS|
      && (forall i | 0 <= i < |segmentSpeed| :: segmentSpeed[i] <= 100.8)
      && |previous| <= 500
      && forall r | r in previous :: Contract(r)
    }

    constructor (seed: string, startTime: int, factors: seq<real>)
      requires |factors| == |ROAD_SEGMENTS| && forall f | f in factors :: 0.22 <= f <= 1.02
      ensures Valid() && this.seed == seed && this.startTime == startTime && previous == []
      ensures forall i | 0 <= i < |ROAD_SEGMENTS| :: segmentSpeed[i] == ROAD_SEGMENTS[i].referenceKph * factors[i]
      ensures duplicatesInjected == lateInjected == invalidInjected == 0
    {
      this.seed, this.startTime := seed, startTime;
      segmentSpeed := InitialSpeeds(factors);
      duplicatesInjected, lateInjected, invalidInjected := 0, 0, 0;
      previous := [];
      InitialSpeedsBounded(factors);
    }

    method Remember(event: Row)
      requires Valid() && Contract(event)
      modifies this`previous
      ensures Valid()
      ensures previous == Remembering(old(previous), event)
    {
      previous := previous + [event];
      if |previous| > 500 {
        previous := previous[1..];
      }
    }

    /** A new observation for position `index`; its kind tells what was injected. */
    method Observe(index: nat, lateRate: real, invalidRate: real, d: Draw) returns (event: Row, ghost kind: Kind)
      requires Valid() && Possible(d)
      modifies this`segmentSpeed, this`lateInjected, this`invalidInjected, this`previous
      ensures Valid()
      ensures kind == if d.invalid < invalidRate then Invalid(d.late < lateRate) else Genuine(d.late < lateRate)
      ensures segmentSpeed == old(segmentSpeed)[Position(index) := DrawnSpeed(old(segmentSpeed), index, d)]
      ensures event == Drawn(seed, startTime, old(segmentSpeed), index, lateRate, invalidRate, d)
      ensures var now := startTime + index * MICROS_PER_SECOND;
              var segment, speed := ROAD_SEGMENTS[Position(index)], DrawnSpeed(old(segmentSpeed), index, d);
              var late := if d.late < lateRate then d.lateMinutes * 60 * MICROS_PER_SECOND else 0;
              if d.invalid < invalidRate
              then && event.speedKph == -1.0
                   && ShowsObservation(event.(speedKph := speed), seed, index, segment, speed, d.volume, now - late,
                                       now)
              else ShowsObservation(event, seed, index, segment, speed, d.volume, now - late, now)
      ensures IsLate(event) <==> kind.late
      ensures Contract(event) <==> kind.Genuine?
      ensures lateInjected == old(lateInjected) + if kind.late then 1 else 0
      ensures invalidInjected == old(invalidInjected) + if kind.Invalid? then 1 else 0
      ensures previous == if kind.Genuine? then Remembering(old(previous), event) else old(previous)
    {
      AllDrivable();
      var position := index % |ROAD_SEGMENTS|;
      var segment := ROAD_SEGMENTS[position];
      assert Drivable(segment);
      var speed := NextSpeed(segment, segmentSpeed[position], d.delta);
      segmentSpeed := segmentSpeed[position := speed];
      var ingestedAt := startTime + index * MICROS_PER_SECOND;
      var observedAt := ingestedAt;
      var isLate := d.late < lateRate;
      if isLate {
        observedAt := observedAt - d.lateMinutes * 60 * MICROS_PER_SECOND;
        lateInjected := lateInjected + 1;
      }
      event := Observed(seed, index, segment, speed, d.volume, observedAt, ingestedAt);
      ObservedMeetsContract(seed, index, segment, speed, d.volume, observedAt, ingestedAt);
      ObservedShows(seed, index, segment, speed, d.volume, observedAt, ingestedAt);
      LateExactlyWhenShifted(event, if isLate then d.lateMinutes else 0);
      if d.invalid < invalidRate {
        event := event.(speedKph := -1.0);
        invalidInjected := invalidInjected + 1;
        kind := Invalid(isLate);
      } else {
        Remember(event);
        kind := Genuine(isLate);
      }
    }

    /** One position of the stream: an event repeated from the history, or a new one. */
    method NextEvent(index: nat, duplicateRate: real, lateRate: real, invalidRate: real, d: Draw)
      returns (event: Row, ghost kind: Kind)
      requires Valid() && Possible(d)
      modifies this
      ensures Valid()
      ensures kind == KindOf(d, old(previous) != [], duplicateRate, lateRate, invalidRate)
      ensures IsNext(seed, index, old(previous), d, event, kind)
      ensures previous == if kind.Genuine? then Remembering(old(previous), event) else old(previous)
      ensures duplicatesInjected == old(duplicatesInjected) + if kind.Duplicate? then 1 else 0
      ensures lateInjected == old(lateInjected) + if !kind.Duplicate? && kind.late then 1 else 0
      ensures invalidInjected == old(invalidInjected) + if kind.Invalid? then 1 else 0
    {
      kind := Duplicate;
      if previous != [] && d.duplicate < duplicateRate {
        duplicatesInjected := duplicatesInjected + 1;
        event := previous[d.choice % |previous|];
      } else {
        event, kind := Observe(index, lateRate, invalidRate, d);
      }
    }

    /** The whole stream, with a ghost record of what was injected where. */
    method Events(count: nat, duplicateRate: real, lateRate: real, invalidRate: real, draws: seq<Draw>)
      returns (events: seq<Row>, ghost kinds: seq<Kind>)
      requires Valid() && |draws| == count && forall d | d in draws :: Possible(d)
      modifies this
      ensures Valid()
      ensures |events| == count && Stream(seed, old(previous), events, kinds)
      ensures FollowsDraws(old(previous), kinds, draws, duplicateRate, lateRate, invalidRate)
      ensures duplicatesInjected == old(duplicatesInjected) + Duplicates(kinds)
      ensures lateInjected == old(lateInjected) + Lates(kinds)
      ensures invalidInjected == old(invalidInjected) + Invalids(kinds)
      ensures RepeatsDrawn(old(previous), events, kinds, draws) && previous == Memory(old(previous), events, kinds)
    {
      events, kinds := [], [];
      ghost var history := previous;
      var index := 0;
      while index < count
        invariant 0 <= index <= count && |events| == index && Valid()
        invariant Logged(seed, history, events, kinds, draws, duplicateRate, lateRate, invalidRate, previous)
        invariant Tallies(kinds, duplicatesInjected - old(duplicatesInjected), lateInjected - old(lateInjected),
                          invalidInjected - old(invalidInjected))
      {
        var d := draws[index];
        ghost var before := previous;
        var event, kind := NextEvent(index, duplicateRate, lateRate, invalidRate, d);
        LoggedExtends(seed, history, events, kinds, draws, duplicateRate, lateRate, invalidRate, before, event, kind,
                      previous);
        TalliesExtend(kinds, kind);
        events, kinds := events + [event], kinds + [kind];
        index := index + 1;
      }
    }
  }

  /** What the loop knows of the stream so far and of the history it keeps. */
  ghost predicate Logged(seed: string, history: seq<Row>, events: seq<Row>, kinds: seq<Kind>, draws: seq<Draw>,
                         duplicateRate: real, lateRate: real, invalidRate: real, previous: seq<Row>) {
    && |events| == |kinds| <= |draws| && |history| <= 500
    && Stream(seed, history, events, kinds)
    && FollowsDraws(history, kinds, draws, duplicateRate, lateRate, invalidRate)
    && (previous != [] <==> HadHistory(history, kinds, |kinds|))
    && RepeatsDrawn(history, events, kinds, draws) && previous == Memory(history, events, kinds)
  }

  /** The next event: repeated from the history, or observed with this kind. */
  ghost predicate IsNext(seed: string, index: nat, previous: seq<Row>, d: Draw, event: Row, kind: Kind) {
    match kind
    case Duplicate => previous != [] && event == previous[d.choice % |previous|]
    case Genuine(late) => event.eventId == SimulatedId(seed, index) && Contract(event) && (IsLate(event) <==> late)
    case Invalid(late) => event.eventId == SimulatedId(seed, index) && !Contract(event) && (IsLate(event) <==> late)
  }

  lemma LoggedExtends(seed: string, history: seq<Row>, events: seq<Row>, kinds: seq<Kind>, draws: seq<Draw>,
                      duplicateRate: real, lateRate: real, invalidRate: real, previous: seq<Row>, event: Row,
                      kind: Kind, after: seq<Row>)
    requires Logged(seed, history, events, kinds, draws, duplicateRate, lateRate, invalidRate, previous)
    requires |kinds| < |draws| && IsNext(seed, |events|, previous, draws[|events|], event, kind)
    requires kind == KindOf(draws[|kinds|], previous != [], duplicateRate, lateRate, invalidRate)
    requires after == if kind.Genuine? then Remembering(previous, event) else previous
    ensures Logged(seed, history, events + [event], kinds + [kind], draws, duplicateRate, lateRate, invalidRate, after)
  {
    if kind.Duplicate? {
      MemoryOrigin(history, events, kinds, event);
    }
    StreamExtends(seed, history, events, kinds, event, kind);
    DrawsExtend(history, kinds, draws, duplicateRate, lateRate, invalidRate, kind);
    MemoryExtends(history, events, kinds, event, kind);
    RepeatsExtend(history, events, kinds, draws, event, kind);
  }

  /** The row was in the history, or is a genuine event of the stream. */
  ghost predicate Remembered(history: seq<Row>, events: seq<Row>, kinds: seq<Kind>, r: Row)
    requires |events| == |kinds|
  {
    r in history || exists j :: 0 <= j < |events| && kinds[j].Genuine? && events[j] == r
  }

  /** So many duplicates, late and invalid events are among these. */
  ghost predicate Tallies(kinds: seq<Kind>, duplicates: int, lates: int, invalids: int) {
    duplicates == Duplicates(kinds) && lates == Lates(kinds) && invalids == Invalids(kinds)
  }

  lemma TalliesExtend(kinds: seq<Kind>, kind: Kind)
    ensures Tallies(kinds + [kind], Duplicates(kinds) + if kind.Duplicate? then 1 else 0,
                    Lates(kinds) + if !kind.Duplicate? && kind.late then 1 else 0,
                    Invalids(kinds) + if kind.Invalid? then 1 else 0)
  {
    assert (kinds + [kind])[..|kinds|] == kinds;
  }

  lemma StreamExtends(seed: string, history: seq<Row>, events: seq<Row>, kinds: seq<Kind>, event: Row, kind: Kind)
    requires Stream(seed, history, events, kinds)
    requires match kind
             case Duplicate => Remembered(history, events, kinds, event)
             case Genuine(late) =>
               event.eventId == SimulatedId(seed, |events|) && Contract(event) && (IsLate(event) <==> late)
             case Invalid(late) =>
               event.eventId == SimulatedId(seed, |events|) && !Contract(event) && (IsLate(event) <==> late)
    ensures Stream(seed, history, events + [event], kinds + [kind])
  {
    var es, ks := events + [event], kinds + [kind];
    forall i: nat | i < |es|
      ensures Faithful(seed, history, es, ks, i)
    {
      if i < |events| {
        assert Faithful(seed, history, events, kinds, i);
        if kinds[i].Duplicate? && events[i] !in history {
          var j :| 0 <= j < i && kinds[j].Genuine? && events[j] == events[i];
          assert ks[j].Genuine? && es[j] == es[i];
        }
      } else if kind.Duplicate? && event !in history {
        var j :| 0 <= j < |events| && kinds[j].Genuine? && events[j] == event;
        assert ks[j].Genuine? && es[j] == es[i];
      }
    }
  }
}
