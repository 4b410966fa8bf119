/** What `datetime.fromtimestamp(t, timezone(timedelta(hours=-4)))` and the
    `strftime` calls of `format_event` produce from an integer epoch-second
    timestamp: a fixed offset of four hours west of UTC, no daylight saving. */
module TimeFormat {
  import opened Failures
  import opened Text
  import opened Civil

  const SECONDS_PER_DAY := 86400
  const UTC_OFFSET := -4 * 3600

  /** Day number of the UTC calendar day of instant `t`. */
  function UtcDay(t: int): int {
    t / SECONDS_PER_DAY
  }

  /** Day number of the local (UTC-4) calendar day of instant `t`. */
  function LocalDay(t: int): int {
    (t + UTC_OFFSET) / SECONDS_PER_DAY
  }

  function SecondOfDay(t: int): int {
    (t + UTC_OFFSET) % SECONDS_PER_DAY
  }

  function Hour(t: int): int {
    SecondOfDay(t) / 3600
  }

  function Minute(t: int): int {
    SecondOfDay(t) % 3600 / 60
  }

  function Second(t: int): int {
    SecondOfDay(t) % 60
  }

  function LocalDate(t: int): Date {
    CivilFromDays(LocalDay(t))
  }

  /** The local date and clock fields of `t` together give back `t`, and each
      field is in its range. */
  lemma LocalFields(t: int)
    ensures ValidDate(LocalDate(t))
    ensures 0 <= Hour(t) <= 23 && 0 <= Minute(t) <= 59 && 0 <= Second(t) <= 59
    ensures DaysFromCivil(LocalDate(t)) * SECONDS_PER_DAY
              + Hour(t) * 3600 + Minute(t) * 60 + Second(t) == t + UTC_OFFSET
  {
    var s := SecondOfDay(t);
    assert LocalDay(t) * SECONDS_PER_DAY + s == t + UTC_OFFSET;
    assert s == Hour(t) * 3600 + Minute(t) * 60 + Second(t);
  }

  /** `fromtimestamp` with a fixed-offset zone succeeds exactly when both the
      UTC and the local day are representable (see `Civil.DayInRangeIff`:
      their years are between 1 and 9999). */
  predicate Convertible(t: int) {
    MIN_DAY <= UtcDay(t) <= MAX_DAY && MIN_DAY <= LocalDay(t) <= MAX_DAY
  }

  /** `start_datetime - timedelta(days=n)` stays representable: the local
      day `n` days earlier is not before 0001-01-01. */
  predicate ShiftConvertible(t: int, days: nat) {
    MIN_DAY <= LocalDay(t) - days
  }

  function Pad2(n: int): (s: string)
    requires 0 <= n < 100
    ensures |s| == 2 && AllDigits(s)
  {
    ZeroPadWidth(n, 2);
    ZeroPad(n, 2)
  }

  /** `%m/%d` of the local date. */
  function DateText(t: int): string {
    var d := LocalDate(t);
    Pad2(d.month) + "/" + Pad2(d.day)
  }

  /** `%H:%M` of the local time. */
  function ClockText(t: int): string {
    LocalFields(t);
    Pad2(Hour(t)) + ":" + Pad2(Minute(t))
  }

  /** `%m/%d %H:%M`, the one `strftime` call whose result is split. */
  function StartStamp(t: int): string {
    DateText(t) + " " + ClockText(t)
  }

  /** Python's `str()` of the zoned datetime, `YYYY-MM-DD HH:MM:SS-04:00`.
      Only instants that `Convertible` admits are ever stored, so the year is
      between 1 and 9999; other years are rendered with their sign. No
      message reaches this rendering: it is `Show` of a `start_datetime`,
      which `event_tostring` does not read. */
  function IsoText(t: int): string {
    LocalFields(t);
    var d := LocalDate(t);
    var year := if d.year < 0 then "-" + ZeroPad(-d.year, 4) else ZeroPad(d.year, 4);
    year + "-" + Pad2(d.month) + "-" + Pad2(d.day) + " "
      + Pad2(Hour(t)) + ":" + Pad2(Minute(t)) + ":" + Pad2(Second(t)) + "-04:00"
  }

  /** Reads `HH:MM` (or `MM/DD`, with `sep == '/'`) back into its two numbers. */
  function ParsePair(s: string, sep: char): Option<(int, int)> {
    if |s| == 5 && s[2] == sep && AllDigits(s[..2]) && AllDigits(s[3..])
    then Some((DecimalValue(s[..2]), DecimalValue(s[3..])))
    else None
  }

  lemma ParsePad2Pair(a: int, b: int, sep: char)
    requires 0 <= a < 100 && 0 <= b < 100 && !IsDigit(sep)
    ensures ParsePair(Pad2(a) + [sep] + Pad2(b), sep) == Some((a, b))
  {
    var s := Pad2(a) + [sep] + Pad2(b);
    assert s[..2] == Pad2(a) && s[3..] == Pad2(b);
    ZeroPadRoundTrip(a, 2);
    ZeroPadRoundTrip(b, 2);
  }

  /** The rendered clock reads back as the local hour and minute of `t`. */
  lemma ClockTextRoundTrip(t: int)
    ensures |ClockText(t)| == 5
    ensures ParsePair(ClockText(t), ':') == Some((Hour(t), Minute(t)))
    ensures 0 <= Hour(t) <= 23 && 0 <= Minute(t) <= 59
  {
    LocalFields(t);
    assert ClockText(t) == Pad2(Hour(t)) + [':'] + Pad2(Minute(t));
    ParsePad2Pair(Hour(t), Minute(t), ':');
  }

  /** The rendered date reads back as the month and day of the local date. */
  lemma DateTextRoundTrip(t: int)
    ensures |DateText(t)| == 5
    ensures ParsePair(DateText(t), '/') == Some((LocalDate(t).month, LocalDate(t).day))
  {
    var d := LocalDate(t);
    assert DateText(t) == Pad2(d.month) + ['/'] + Pad2(d.day);
    ParsePad2Pair(d.month, d.day, '/');
  }

  lemma Pad2NoSpace(n: int)
    requires 0 <= n < 100
    ensures NoSpace(Pad2(n))
  {
  }

  /** `strftime("%m/%d %H:%M").split()` gives exactly the date and the clock. */
  lemma StartStampSplits(t: int)
    ensures Split(StartStamp(t)) == [DateText(t), ClockText(t)]
  {
    LocalFields(t);
    var d := LocalDate(t);
    Pad2NoSpace(d.month);
    Pad2NoSpace(d.day);
    Pad2NoSpace(Hour(t));
    Pad2NoSpace(Minute(t));
    assert NoSpace(DateText(t));
    assert NoSpace(ClockText(t));
    SplitTwoWords(DateText(t), ClockText(t));
  }

  lemma ExampleDate(t: int)
    requires t == 1700000000
    ensures UtcDay(t) == LocalDay(t) && LocalDate(t) == Date(2023, 11, 14)
  {
    var d := Date(2023, 11, 14);
    assert LocalDay(t) == DaysFromCivil(d) == UtcDay(t);
    CivilRoundTrip(d);
  }

  lemma ExampleClock(t: int)
    requires t == 1700000000
    ensures Hour(t) == 18 && Minute(t) == 13
  {
    var s := SecondOfDay(t);
    assert s == 65600;
    assert s % 3600 / 60 == 13;
  }

  lemma ExamplePads()
    ensures Pad2(11) + "/" + Pad2(14) == "11/14"
    ensures Pad2(18) + ":" + Pad2(13) == "18:13"
  {
    assert Pad2(11) == "11" && Pad2(14) == "14" && Pad2(18) == "18" && Pad2(13) == "13";
  }

  /** 1700000000 is 2023-11-14 22:13:20 UTC, so 18:13 on 11/14 at UTC-4.
      (The instant is a parameter so that the verifier reasons about the
      calendar search through its contract instead of unrolling it.) */
  lemma ExampleInstant(t: int)
    requires t == 1700000000
    ensures Convertible(t)
    ensures DateText(t) == "11/14" && ClockText(t) == "18:13"
  {
    ExampleDateText(t);
    ExampleClockText(t);
    ExampleConvertible(t);
  }

  lemma ExampleConvertible(t: int)
    requires t == 1700000000
    ensures Convertible(t)
  {
  }

  lemma ExampleDateText(t: int)
    requires t == 1700000000
    ensures DateText(t) == "11/14"
  {
    ExampleDate(t);
    ExamplePads();
    var d := LocalDate(t);
    assert d.month == 11 && d.day == 14;
  }

  lemma ExampleClockText(t: int)
    requires t == 1700000000
    ensures ClockText(t) == "18:13"
  {
    ExampleClock(t);
    ExamplePads();
  }
}
