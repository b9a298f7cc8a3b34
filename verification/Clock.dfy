/**
 UTC instants as calendar fields, their position on the epoch time line, the five-minute
 snapshot floor of the Seoul connector, and the text forms used in keys and identities.
 */
module Clock {
  import opened Decimal

  datatype Utc = Utc(year: int, month: int, day: int, hour: int, minute: int, second: int, micro: int)

  predicate Leap(year: int) {
    year % 4 == 0 && (year % 100 != 0 || year % 400 == 0)
  }

  function DaysInMonth(year: int, month: int): int {
    if month == 2 then if Leap(year) then 29 else 28
    else if month == 4 || month == 6 || month == 9 || month == 11 then 30
    else 31
  }

  /** The instants a four-digit year can name. */
  predicate Valid(t: Utc) {
    && 1000 <= t.year <= 9999
    && 1 <= t.month <= 12
    && 1 <= t.day <= DaysInMonth(t.year, t.month)
    && 0 <= t.hour < 24
    && 0 <= t.minute < 60
    && 0 <= t.second < 60
    && 0 <= t.micro < 1_000_000
  }

  // ---- The epoch time line --------------------------------------------------------------

  function DaysBeforeYear(year: int): int {
    365 * (year - 1) + (year - 1) / 4 - (year - 1) / 100 + (year - 1) / 400
  }

  function DaysBeforeMonth(year: int, month: int): int
    requires 1 <= month
    decreases month
  {
    if month == 1 then 0 else DaysBeforeMonth(year, month - 1) + DaysInMonth(year, month - 1)
  }

  function DayNumber(year: int, month: int, day: int): int
    requires 1 <= month
  {
    DaysBeforeYear(year) + DaysBeforeMonth(year, month) + day
  }

  function EpochSeconds(t: Utc): int
    requires Valid(t)
  {
    (DayNumber(t.year, t.month, t.day) - DayNumber(1970, 1, 1)) * 86_400
    + t.hour * 3_600 + t.minute * 60 + t.second
  }

  function EpochMicros(t: Utc): int
    requires Valid(t)
  {
    EpochSeconds(t) * 1_000_000 + t.micro
  }

  /** A quotient grows by one exactly at the multiples of its divisor. */
  lemma QuotientStep(n: int, d: int)
    requires d > 1
    ensures n / d - (n - 1) / d == if n % d == 0 then 1 else 0
  {
    var q, r := n / d, n % d;
    assert n == q * d + r;
    if r == 0 {
      Quotient(q - 1, d - 1, d);
      assert n - 1 == (q - 1) * d + (d - 1);
    } else {
      Quotient(q, r - 1, d);
    }
  }

  /** Non-zero multiples of d lie at least d away from zero. */
  lemma Multiple(x: int, d: int)
    requires d > 0
    ensures x >= 1 ==> x * d >= d
    ensures x <= -1 ==> x * d <= -d
  {
    if x >= 1 {
      assert (x - 1) * d >= 0;
    } else if x <= -1 {
      assert (x + 1) * d <= 0;
    }
  }

  lemma Quotient(q: int, r: int, d: int)
    requires 0 <= r < d
    ensures (q * d + r) / d == q
  {
    var n := q * d + r;
    assert n == (n / d) * d + n % d;
    var x := q - n / d;
    assert x * d == n % d - r;
    Multiple(x, d);
  }

  lemma YearLength(year: int)
    ensures DaysBeforeYear(year + 1) - DaysBeforeYear(year) == if Leap(year) then 366 else 365
  {
    QuotientStep(year, 4);
    QuotientStep(year, 100);
    QuotientStep(year, 400);
    Divides(year);
  }

  lemma Divides(year: int)
    ensures year % 400 == 0 ==> year % 100 == 0
    ensures year % 100 == 0 ==> year % 4 == 0
  {
    if year % 400 == 0 {
      Quotient(4 * (year / 400), 0, 100);
    }
    if year % 100 == 0 {
      Quotient(25 * (year / 100), 0, 4);
    }
  }

  lemma {:induction false} YearsIncrease(a: int, b: int)
    requires a < b
    ensures DaysBeforeYear(a) + (if Leap(a) then 366 else 365) <= DaysBeforeYear(b)
    decreases b - a
  {
    YearLength(a);
    if a + 1 < b {
      YearsIncrease(a + 1, b);
    }
  }

  lemma {:induction false} MonthsIncrease(year: int, a: int, b: int)
    requires 1 <= a < b
    ensures DaysBeforeMonth(year, a) + DaysInMonth(year, a) <= DaysBeforeMonth(year, b)
    decreases b
  {
    if a < b - 1 {
      MonthsIncrease(year, a, b - 1);
    }
  }

  lemma YearCovers(year: int, month: int)
    requires 1 <= month <= 12
    ensures DaysBeforeMonth(year, month) + DaysInMonth(year, month) <= if Leap(year) then 366 else 365
  {
    if month < 12 {
      MonthsIncrease(year, month, 12);
    }
    assert DaysBeforeMonth(year, 1) == 0;
    assert DaysBeforeMonth(year, 4) == DaysInMonth(year, 2) + 62;
    assert DaysBeforeMonth(year, 7) == DaysInMonth(year, 2) + 153;
    assert DaysBeforeMonth(year, 10) == DaysInMonth(year, 2) + 245;
    assert DaysBeforeMonth(year, 12) + 31 == DaysInMonth(year, 2) + 337;
  }

  /** Calendar order on dates. */
  predicate DateBefore(a: Utc, b: Utc) {
    || a.year < b.year
    || (a.year == b.year && a.month < b.month)
    || (a.year == b.year && a.month == b.month && a.day < b.day)
  }

  lemma DayNumberIncreases(a: Utc, b: Utc)
    requires Valid(a) && Valid(b) && DateBefore(a, b)
    ensures DayNumber(a.year, a.month, a.day) < DayNumber(b.year, b.month, b.day)
  {
    YearCovers(a.year, a.month);
    DaysBeforeMonthNatural(b.year, b.month);
    if a.year < b.year {
      YearsIncrease(a.year, b.year);
    } else if a.month < b.month {
      MonthsIncrease(a.year, a.month, b.month);
    }
  }

  lemma DaysBeforeMonthNatural(year: int, month: int)
    requires 1 <= month
    ensures DaysBeforeMonth(year, month) >= 0
  {
  }

  /** The same time on the day after. */
  function NextDay(t: Utc): Utc {
    if t.day < DaysInMonth(t.year, t.month) then t.(day := t.day + 1)
    else if t.month < 12 then t.(month := t.month + 1, day := 1)
    else t.(year := t.year + 1, month := 1, day := 1)
  }

  /** The day after lies 86,400 seconds later, through the ends of months and years. */
  lemma DaysFollow(t: Utc)
    requires Valid(t) && t.year < 9999
    ensures Valid(NextDay(t)) && EpochMicros(NextDay(t)) == EpochMicros(t) + 86_400 * 1_000_000
  {
    if t.month == 12 {
      YearLength(t.year);
      MonthsByFormula(t.year, 12);
      assert DaysBeforeMonth(t.year + 1, 1) == 0;
    }
  }

  /** From March on, months begin where the calendar formula says. */
  lemma {:induction false} MonthsByFormula(year: int, month: int)
    requires 3 <= month <= 12
    ensures DaysBeforeMonth(year, 2) == 31 && DaysBeforeMonth(year, 3) == if Leap(year) then 60 else 59
    ensures DaysBeforeMonth(year, month) == DaysBeforeMonth(year, 3) + (153 * (month - 3) + 2) / 5
  {
    assert DaysBeforeMonth(year, 1) == 0;
    if month > 3 {
      MonthsByFormula(year, month - 1);
    }
  }

  /** The time line starts with the first day of 1970 and counts its time of day. */
  lemma FirstDay(t: Utc)
    requires Valid(t) && t.year == 1970 && t.month == t.day == 1
    ensures EpochMicros(t) == ((t.hour * 60 + t.minute) * 60 + t.second) * 1_000_000 + t.micro
  {
  }

  /** Different instants lie at different places of the time line. */
  lemma EpochMicrosInjective(a: Utc, b: Utc)
    requires Valid(a) && Valid(b)
    requires EpochMicros(a) == EpochMicros(b)
    ensures a == b
  {
    if DateBefore(a, b) {
      DayNumberIncreases(a, b);
    } else if DateBefore(b, a) {
      DayNumberIncreases(b, a);
    }
  }

  // ---- The five-minute snapshot ---------------------------------------------------------

  const WINDOW_SECONDS: int := 300
  const WINDOW_MICROS: int := WINDOW_SECONDS * 1_000_000

  /** The retrieval time with its minute floored to a multiple of five and the rest cleared. */
  function Snapshot(t: Utc): Utc {
    t.(minute := t.minute - t.minute % 5, second := 0, micro := 0)
  }

  /** Which five-minute window of the time line an instant belongs to. */
  function Window(micros: int): int {
    micros / WINDOW_MICROS
  }

  lemma SnapshotFields(t: Utc)
    requires Valid(t)
    ensures Valid(Snapshot(t)) && Snapshot(t).minute == 5 * (t.minute / 5)
    ensures Snapshot(Snapshot(t)) == Snapshot(t)
  {
    var five := t.minute / 5;
    assert t.minute == 5 * five + t.minute % 5;
    assert (five * 5) % 5 == 0;
  }

  /** How far an instant is into its window. */
  function SnapshotGap(t: Utc): int {
    (t.minute % 5 * 60 + t.second) * 1_000_000 + t.micro
  }

  /** The windows before the one of an instant, counted by the calendar. */
  function WindowsBefore(t: Utc): int
    requires Valid(t)
  {
    (DayNumber(t.year, t.month, t.day) - DayNumber(1970, 1, 1)) * 288 + t.hour * 12 + t.minute / 5
  }

  lemma WindowsAndGap(t: Utc)
    requires Valid(t)
    ensures EpochMicros(t) == WindowsBefore(t) * WINDOW_MICROS + SnapshotGap(t)
    ensures 0 <= SnapshotGap(t) < WINDOW_MICROS
  {
    assert t.minute == 5 * (t.minute / 5) + t.minute % 5;
    assert EpochSeconds(t) == WindowsBefore(t) * 300 + t.minute % 5 * 60 + t.second;
  }

  /** Flooring the minute field is flooring the epoch time to 300 seconds. */
  lemma SnapshotIsEpochFloor(t: Utc)
    requires Valid(t)
    ensures Valid(Snapshot(t))
    ensures EpochMicros(Snapshot(t)) == Window(EpochMicros(t)) * WINDOW_MICROS
    ensures 0 <= EpochMicros(t) - EpochMicros(Snapshot(t)) < WINDOW_MICROS
    ensures Snapshot(Snapshot(t)) == Snapshot(t)
  {
    var s := Snapshot(t);
    SnapshotFields(t);
    WindowsAndGap(t);
    WindowsAndGap(s);
    assert WindowsBefore(s) == WindowsBefore(t) && SnapshotGap(s) == 0;
    Quotient(WindowsBefore(t), SnapshotGap(t), WINDOW_MICROS);
  }

  lemma SnapshotMonotone(a: Utc, b: Utc)
    requires Valid(a) && Valid(b) && EpochMicros(a) <= EpochMicros(b)
    ensures Valid(Snapshot(a)) && Valid(Snapshot(b))
    ensures EpochMicros(Snapshot(a)) <= EpochMicros(Snapshot(b))
  {
    SnapshotIsEpochFloor(a);
    SnapshotIsEpochFloor(b);
    QuotientMonotone(EpochMicros(a), EpochMicros(b), WINDOW_MICROS);
    WindowOrder(Window(EpochMicros(a)), Window(EpochMicros(b)));
  }

  lemma WindowOrder(w: int, v: int)
    requires w <= v
    ensures w * WINDOW_MICROS <= v * WINDOW_MICROS
  {
  }

  lemma QuotientMonotone(n: int, m: int, d: int)
    requires d > 0 && n <= m
    ensures n / d <= m / d
  {
    var x := n / d - m / d;
    assert n == (n / d) * d + n % d && m == (m / d) * d + m % d;
    assert x * d == n - m - n % d + m % d;
    Multiple(x, d);
  }

  lemma WindowTold(w: int, v: int)
    requires w * WINDOW_MICROS == v * WINDOW_MICROS
    ensures w == v
  {
  }

  /** Two retrievals share a snapshot exactly when they fall in one window. */
  lemma SameSnapshotSameWindow(a: Utc, b: Utc)
    requires Valid(a) && Valid(b)
    ensures Snapshot(a) == Snapshot(b) <==> Window(EpochMicros(a)) == Window(EpochMicros(b))
  {
    SnapshotIsEpochFloor(a);
    SnapshotIsEpochFloor(b);
    if Window(EpochMicros(a)) == Window(EpochMicros(b)) {
      EpochMicrosInjective(Snapshot(a), Snapshot(b));
    }
    if Snapshot(a) == Snapshot(b) {
      WindowTold(Window(EpochMicros(a)), Window(EpochMicros(b)));
    }
  }

  // ---- Text forms -----------------------------------------------------------------------

  function Date(t: Utc): (s: string)
    requires Valid(t)
    ensures |s| == 10
    ensures forall i | 0 <= i < |s| :: IsDigit(s[i]) || s[i] == '-'
  {
    Padded(t.year, 4) + "-" + Padded(t.month, 2) + "-" + Padded(t.day, 2)
  }

  /** The date without separators, as object names use it. */
  function CompactDate(t: Utc): (s: string)
    requires Valid(t)
    ensures |s| == 8
    ensures AllDigits(s)
  {
    Padded(t.year, 4) + Padded(t.month, 2) + Padded(t.day, 2)
  }

  /** %Y%m%dT%H%M%S%fZ */
  function MicroStamp(t: Utc): (s: string)
    requires Valid(t)
    ensures |s| == 22
    ensures forall i | 0 <= i < |s| :: IsDigit(s[i]) || s[i] == 'T' || s[i] == 'Z'
  {
    CompactDate(t) + "T" + Padded(t.hour, 2) + Padded(t.minute, 2) + Padded(t.second, 2)
    + Padded(t.micro, 6) + "Z"
  }

  /** %Y%m%dT%H%MZ */
  function MinuteStamp(t: Utc): (s: string)
    requires Valid(t)
    ensures |s| == 14
    ensures forall i | 0 <= i < |s| :: IsDigit(s[i]) || s[i] == 'T' || s[i] == 'Z'
  {
    CompactDate(t) + "T" + Padded(t.hour, 2) + Padded(t.minute, 2) + "Z"
  }

  /** isoformat() of an instant without microseconds, in UTC. */
  function Iso(t: Utc): (s: string)
    requires Valid(t)
    ensures |s| == 25
  {
    Date(t) + "T" + Padded(t.hour, 2) + ":" + Padded(t.minute, 2) + ":" + Padded(t.second, 2) + "+00:00"
  }

  /** These characters of the text are digits and show this number. */
  ghost predicate Shows(s: string, from: nat, to: nat, n: int) {
    from <= to <= |s| && AllDigits(s[from..to]) && Value(s[from..to]) == n
  }

  lemma Field(s: string, from: nat, to: nat, n: int)
    requires from <= to <= |s| && 0 <= n < Power10(to - from) && s[from..to] == Padded(n, to - from)
    ensures Shows(s, from, to, n)
  {
    PaddedValue(n, to - from);
  }

  lemma Powers()
    ensures Power10(2) == 100 && Power10(4) == 10_000 && Power10(6) == 1_000_000
  {
    assert Power10(3) == 1_000 && Power10(5) == 100_000;
  }

  lemma CompactDateReads(t: Utc)
    requires Valid(t)
    ensures var s := CompactDate(t); Shows(s, 0, 4, t.year) && Shows(s, 4, 6, t.month) && Shows(s, 6, 8, t.day)
  {
    Powers();
    var s := CompactDate(t);
    Field(s, 0, 4, t.year);
    Field(s, 4, 6, t.month);
    Field(s, 6, 8, t.day);
  }

  lemma DateReads(t: Utc)
    requires Valid(t)
    ensures var s := Date(t);
            && Shows(s, 0, 4, t.year) && Shows(s, 5, 7, t.month) && Shows(s, 8, 10, t.day) && s[4] == s[7] == '-'
  {
    Powers();
    var s := Date(t);
    Field(s, 0, 4, t.year);
    Field(s, 5, 7, t.month);
    Field(s, 8, 10, t.day);
  }

  /** A number shown in part of a text is shown by the whole. */
  lemma Part(whole: string, at: nat, part: string, from: nat, to: nat, n: int)
    requires at + |part| <= |whole| && whole[at..at + |part|] == part && Shows(part, from, to, n)
    ensures Shows(whole, at + from, at + to, n)
  {
    assert forall i | from <= i < to :: part[i] == whole[at..at + |part|][i] == whole[at + i];
    assert whole[at + from..at + to] == part[from..to];
  }

  /** This day is written at this place of a text. */
  ghost predicate ShowsDay(s: string, at: nat, t: Utc) {
    Shows(s, at, at + 4, t.year) && Shows(s, at + 5, at + 7, t.month) && Shows(s, at + 8, at + 10, t.day)
  }

  lemma DayShown(whole: string, at: nat, t: Utc)
    requires Valid(t) && at + 10 <= |whole| && whole[at..at + 10] == Date(t)
    ensures ShowsDay(whole, at, t)
  {
    DateReads(t);
    Part(whole, at, Date(t), 0, 4, t.year);
    Part(whole, at, Date(t), 5, 7, t.month);
    Part(whole, at, Date(t), 8, 10, t.day);
  }

  /** The stamp of a batch reads back to every field of its instant. */
  lemma MicroStampReads(t: Utc)
    requires Valid(t)
    ensures var s := MicroStamp(t);
            && Shows(s, 0, 4, t.year) && Shows(s, 4, 6, t.month) && Shows(s, 6, 8, t.day) && s[8] == 'T'
            && Shows(s, 9, 11, t.hour) && Shows(s, 11, 13, t.minute) && Shows(s, 13, 15, t.second)
            && Shows(s, 15, 21, t.micro) && s[21] == 'Z'
  {
    Powers();
    CompactDateReads(t);
    var s, d := MicroStamp(t), CompactDate(t);
    Part(s, 0, d, 0, 4, t.year);
    Part(s, 0, d, 4, 6, t.month);
    Part(s, 0, d, 6, 8, t.day);
    Field(s, 9, 11, t.hour);
    Field(s, 11, 13, t.minute);
    Field(s, 13, 15, t.second);
    Field(s, 15, 21, t.micro);
  }

  lemma MinuteStampReads(t: Utc)
    requires Valid(t)
    ensures var s := MinuteStamp(t);
            && Shows(s, 0, 4, t.year) && Shows(s, 4, 6, t.month) && Shows(s, 6, 8, t.day) && s[8] == 'T'
            && Shows(s, 9, 11, t.hour) && Shows(s, 11, 13, t.minute) && s[13] == 'Z'
  {
    Powers();
    CompactDateReads(t);
    var s, d := MinuteStamp(t), CompactDate(t);
    Part(s, 0, d, 0, 4, t.year);
    Part(s, 0, d, 4, 6, t.month);
    Part(s, 0, d, 6, 8, t.day);
    Field(s, 9, 11, t.hour);
    Field(s, 11, 13, t.minute);
  }

  lemma IsoReads(t: Utc)
    requires Valid(t)
    ensures var s := Iso(t);
            && Shows(s, 0, 4, t.year) && Shows(s, 5, 7, t.month) && Shows(s, 8, 10, t.day)
            && Shows(s, 11, 13, t.hour) && Shows(s, 14, 16, t.minute) && Shows(s, 17, 19, t.second)
  {
    Powers();
    DateReads(t);
    var s, d := Iso(t), Date(t);
    Part(s, 0, d, 0, 4, t.year);
    Part(s, 0, d, 5, 7, t.month);
    Part(s, 0, d, 8, 10, t.day);
    Field(s, 11, 13, t.hour);
    Field(s, 14, 16, t.minute);
    Field(s, 17, 19, t.second);
  }

  lemma MicroStampInjective(a: Utc, b: Utc)
    requires Valid(a) && Valid(b) && MicroStamp(a) == MicroStamp(b)
    ensures a == b
  {
    MicroStampReads(a);
    MicroStampReads(b);
  }

  /** A snapshot is determined by its minute stamp. */
  lemma MinuteStampInjective(a: Utc, b: Utc)
    requires Valid(a) && Valid(b)
    requires a.second == b.second && a.micro == b.micro
    requires MinuteStamp(a) == MinuteStamp(b)
    ensures a == b
  {
    MinuteStampReads(a);
    MinuteStampReads(b);
  }

  lemma IsoInjective(a: Utc, b: Utc)
    requires Valid(a) && Valid(b) && a.micro == b.micro && Iso(a) == Iso(b)
    ensures a == b
  {
    IsoReads(a);
    IsoReads(b);
  }
}
