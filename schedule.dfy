/**
 * The daily schedule of a prediction report: the calendar date it is for,
 * the split of each minute of the day into an hour and a minute of the hour,
 * and the two strings every slot carries, its game ID `YYYYMMDD-HHMM` and its
 * time label `HH:MM`.
 */
module Schedule {
  import opened Wrappers
  import opened Digits

  const MinutesPerHour: nat := 60
  const HoursPerDay: nat := 24
  /** One slot per minute of the day. */
  const TotalMinutes: nat := HoursPerDay * MinutesPerHour

  /** A calendar date, as the date picker hands it to the generator. */
  datatype Date = Date(year: nat, month: nat, day: nat)

  predicate IsLeapYear(y: nat) { y % 4 == 0 && (y % 100 != 0 || y % 400 == 0) }

  function DaysInMonth(y: nat, m: nat): nat
    requires 1 <= m <= 12
  {
    if m == 2 then (if IsLeapYear(y) then 29 else 28)
    else if m == 4 || m == 6 || m == 9 || m == 11 then 30
    else 31
  }

  /** What every Python `date` satisfies: a year in 1..9999 and a real day of a real month. */
  predicate ValidDate(d: Date)
  {
    1 <= d.year <= 9999 && 1 <= d.month <= 12 && 1 <= d.day <= DaysInMonth(d.year, d.month)
  }

  /** The date rendered as `strftime('%Y%m%d')` does: four, two and two zero-padded digits. */
  function DateStamp(d: Date): string
  {
    ZeroPad(d.year, 4) + ZeroPad(d.month, 2) + ZeroPad(d.day, 2)
  }

  /** Reads an eight-digit `YYYYMMDD` stamp back into its three fields. */
  function ParseDateStamp(s: string): Option<Date>
  {
    if |s| == 8 && IsDigits(s) then Some(Date(Value(s[..4]), Value(s[4..6]), Value(s[6..])))
    else None
  }

  /** The hour of the day and the minute of the hour of one slot. */
  datatype ClockTime = ClockTime(hour: nat, minute: nat)

  /** `hour = minute // 60` and `min = minute % 60`. */
  function SlotTime(minute: nat): (t: ClockTime)
    ensures t.minute < MinutesPerHour
    ensures t.hour * MinutesPerHour + t.minute == minute
    ensures minute < TotalMinutes ==> t.hour < HoursPerDay
  {
    ClockTime(minute / MinutesPerHour, minute % MinutesPerHour)
  }

  /** The four digits `HHMM` that end a game ID. */
  function ClockDigits(hour: nat, minute: nat): string
  {
    ZeroPad(hour, 2) + ZeroPad(minute, 2)
  }

  /** The game ID of one slot: the date stamp, a dash, then `HHMM`. */
  function GameId(d: Date, hour: nat, minute: nat): string
  {
    DateStamp(d) + "-" + ClockDigits(hour, minute)
  }

  /** The time label `HH:MM` of one slot. */
  function TimeLabel(hour: nat, minute: nat): string
  {
    ZeroPad(hour, 2) + ":" + ZeroPad(minute, 2)
  }

  /** The game ID the generator gives the slot at `minute` of the day `d`. */
  function SlotId(d: Date, minute: nat): string
  {
    var t := SlotTime(minute);
    GameId(d, t.hour, t.minute)
  }

  /** The time label the generator gives the slot at `minute`. */
  function SlotLabel(minute: nat): string
  {
    var t := SlotTime(minute);
    TimeLabel(t.hour, t.minute)
  }

  /** Reads a `HH:MM` label back into its hour and minute. */
  function ParseTimeLabel(s: string): Option<ClockTime>
  {
    if |s| == 5 && s[2] == ':' && IsDigits(s[..2]) && IsDigits(s[3..])
    then Some(ClockTime(Value(s[..2]), Value(s[3..])))
    else None
  }

  /** Reads a `YYYYMMDD-HHMM` game ID back into its date and clock time. */
  function ParseGameId(s: string): Option<(Date, ClockTime)>
  {
    if |s| == 13 && s[8] == '-' && IsDigits(s[..8]) && IsDigits(s[9..11]) && IsDigits(s[11..])
    then Some((ParseDateStamp(s[..8]).value, ClockTime(Value(s[9..11]), Value(s[11..]))))
    else None
  }

  lemma Pow10Small()
    ensures Pow10(2) == 100 && Pow10(4) == 10000
  {
    assert Pow10(1) == 10;
    assert Pow10(3) == 1000;
  }

  /** The hour and minute of a slot are the only ones that rebuild its minute of the day. */
  lemma SlotTimeUnique(minute: nat, hour: nat, min: nat)
    requires min < MinutesPerHour && hour * MinutesPerHour + min == minute
    ensures SlotTime(minute) == ClockTime(hour, min)
  {
  }

  /** For a valid date the stamp is eight digits that read back as the same date. */
  lemma DateStampRoundTrip(d: Date)
    requires ValidDate(d)
    ensures |DateStamp(d)| == 8 && IsDigits(DateStamp(d))
    ensures ParseDateStamp(DateStamp(d)) == Some(d)
  {
    Pow10Small();
    ZeroPadDenotes(d.year, 4);
    ZeroPadDenotes(d.month, 2);
    ZeroPadDenotes(d.day, 2);
    var y, m, dd := ZeroPad(d.year, 4), ZeroPad(d.month, 2), ZeroPad(d.day, 2);
    var s := DateStamp(d);
    assert s[..4] == y && s[4..6] == m && s[6..] == dd;
  }

  /** Padded hour and minute: two digits each, reading back as the numbers. */
  lemma TwoDigits(n: nat)
    requires n < 100
    ensures |ZeroPad(n, 2)| == 2 && IsDigits(ZeroPad(n, 2)) && Value(ZeroPad(n, 2)) == n
  {
    Pow10Small();
    ZeroPadDenotes(n, 2);
  }

  /** The `HHMM` digits of a slot are four digits whose value is `hour * 100 + minute`. */
  lemma ClockDigitsValue(hour: nat, minute: nat)
    requires hour < 100 && minute < 100
    ensures |ClockDigits(hour, minute)| == 4 && IsDigits(ClockDigits(hour, minute))
    ensures Value(ClockDigits(hour, minute)) == hour * 100 + minute
  {
    TwoDigits(hour);
    TwoDigits(minute);
    Pow10Small();
    ValueSplit(ZeroPad(hour, 2), ZeroPad(minute, 2));
  }

  lemma TimeLabelRoundTrip(hour: nat, minute: nat)
    requires hour < 100 && minute < 100
    ensures |TimeLabel(hour, minute)| == 5
    ensures ParseTimeLabel(TimeLabel(hour, minute)) == Some(ClockTime(hour, minute))
  {
    TwoDigits(hour);
    TwoDigits(minute);
    var s := TimeLabel(hour, minute);
    assert s[..2] == ZeroPad(hour, 2) && s[3..] == ZeroPad(minute, 2);
  }

  lemma ParseTimeLabelInverse(s: string)
    requires ParseTimeLabel(s).Some?
    ensures TimeLabel(ParseTimeLabel(s).value.hour, ParseTimeLabel(s).value.minute) == s
  {
    ZeroPadValue(s[..2]);
    ZeroPadValue(s[3..]);
    assert s == s[..2] + ":" + s[3..];
  }

  lemma GameIdRoundTrip(d: Date, hour: nat, minute: nat)
    requires ValidDate(d) && hour < 100 && minute < 100
    ensures |GameId(d, hour, minute)| == 13
    ensures ParseGameId(GameId(d, hour, minute)) == Some((d, ClockTime(hour, minute)))
  {
    DateStampRoundTrip(d);
    TwoDigits(hour);
    TwoDigits(minute);
    var s := GameId(d, hour, minute);
    assert s[..8] == DateStamp(d);
    assert s[9..11] == ZeroPad(hour, 2) && s[11..] == ZeroPad(minute, 2);
  }

  lemma ParseGameIdInverse(s: string)
    requires ParseGameId(s).Some?
    ensures var (d, t) := ParseGameId(s).value; GameId(d, t.hour, t.minute) == s
  {
    var stamp := s[..8];
    ZeroPadValue(stamp[..4]);
    ZeroPadValue(stamp[4..6]);
    ZeroPadValue(stamp[6..]);
    assert stamp == stamp[..4] + stamp[4..6] + stamp[6..];
    ZeroPadValue(s[9..11]);
    ZeroPadValue(s[11..]);
    assert s == stamp + "-" + (s[9..11] + s[11..]);
  }

  /** Slots later in the day have larger `hour * 100 + minute` clock values. */
  lemma ClockValueIncreases(i: nat, j: nat)
    requires i < j
    ensures var ti, tj := SlotTime(i), SlotTime(j);
      ti.hour * 100 + ti.minute < tj.hour * 100 + tj.minute
  {
    var ti, tj := SlotTime(i), SlotTime(j);
    if ti.hour < tj.hour {
      assert ti.hour * 100 + ti.minute < (ti.hour + 1) * 100 <= tj.hour * 100;
    } else {
      assert ti.hour * 60 <= tj.hour * 60;
    }
  }

  /** Game IDs of one day increase, in Python's string order, with the minute of the day. */
  lemma SlotIdsIncrease(d: Date, i: nat, j: nat)
    requires i < j < TotalMinutes
    ensures LexLess(SlotId(d, i), SlotId(d, j))
  {
    var ti, tj := SlotTime(i), SlotTime(j);
    ClockDigitsValue(ti.hour, ti.minute);
    ClockDigitsValue(tj.hour, tj.minute);
    ClockValueIncreases(i, j);
    LexLessOfValue(ClockDigits(ti.hour, ti.minute), ClockDigits(tj.hour, tj.minute));
    LexLessCommonPrefix(DateStamp(d) + "-", ClockDigits(ti.hour, ti.minute), ClockDigits(tj.hour, tj.minute));
  }

  /** Time labels of one day increase, in Python's string order, with the minute of the day. */
  lemma SlotLabelsIncrease(i: nat, j: nat)
    requires i < j < TotalMinutes
    ensures LexLess(SlotLabel(i), SlotLabel(j))
  {
    var ti, tj := SlotTime(i), SlotTime(j);
    TwoDigits(ti.hour);
    TwoDigits(ti.minute);
    TwoDigits(tj.hour);
    TwoDigits(tj.minute);
    var hi, hj := ZeroPad(ti.hour, 2), ZeroPad(tj.hour, 2);
    var mi, mj := ZeroPad(ti.minute, 2), ZeroPad(tj.minute, 2);
    if ti.hour < tj.hour {
      LexLessOfValue(hi, hj);
      LexLessPrefixes(hi, hj, ":" + mi, ":" + mj);
      assert SlotLabel(i) == hi + (":" + mi);
      assert SlotLabel(j) == hj + (":" + mj);
    } else {
      SameHourLabels(i, j);
    }
  }

  lemma SameHourLabels(i: nat, j: nat)
    requires i < j < TotalMinutes && SlotTime(i).hour >= SlotTime(j).hour
    ensures LexLess(SlotLabel(i), SlotLabel(j))
  {
    var ti, tj := SlotTime(i), SlotTime(j);
    assert ti.hour == tj.hour by {
      assert ti.hour * 60 <= tj.hour * 60;
    }
    assert ti.minute < tj.minute;
    TwoDigits(ti.minute);
    TwoDigits(tj.minute);
    var mi, mj := ZeroPad(ti.minute, 2), ZeroPad(tj.minute, 2);
    LexLessOfValue(mi, mj);
    LexLessCommonPrefix(ZeroPad(ti.hour, 2) + ":", mi, mj);
  }

  /** Strings that already differ within equal-length heads keep their order whatever follows. */
  lemma {:induction false} LexLessPrefixes(a: string, b: string, x: string, y: string)
    requires LexLess(a, b) && |a| == |b|
    ensures LexLess(a + x, b + y)
  {
    assert a != [];
    assert (a + x)[0] == a[0] && (b + y)[0] == b[0];
    if a[0] == b[0] {
      assert (a + x)[1..] == a[1..] + x && (b + y)[1..] == b[1..] + y;
      LexLessPrefixes(a[1..], b[1..], x, y);
    }
  }

  /** Every ID of a day is 13 characters: that day's stamp, a dash and four digits. */
  lemma SlotIdShape(d: Date, minute: nat)
    requires ValidDate(d) && minute < TotalMinutes
    ensures |SlotId(d, minute)| == 13
    ensures SlotId(d, minute)[..8] == DateStamp(d) && SlotId(d, minute)[8] == '-'
  {
    var t := SlotTime(minute);
    GameIdRoundTrip(d, t.hour, t.minute);
    DateStampRoundTrip(d);
  }

  /** Two-digit renderings used by the examples below. */
  lemma PadExamples()
    ensures ZeroPad(0, 2) == "00" && ZeroPad(1, 2) == "01" && ZeroPad(5, 2) == "05"
    ensures ZeroPad(6, 2) == "06" && ZeroPad(30, 2) == "30"
    ensures ZeroPad(23, 2) == "23" && ZeroPad(59, 2) == "59"
  {
    assert Decimal(0) == "0" && Decimal(1) == "1" && Decimal(5) == "5" && Decimal(6) == "6";
    assert Decimal(30) == Decimal(3) + "0";
    assert Decimal(23) == Decimal(2) + "3";
    assert Decimal(59) == Decimal(5) + "9";
  }

  /** The game ID of minute 65 of 2024-06-01. */
  lemma GameIdExample()
    ensures SlotId(Date(2024, 6, 1), 65) == "20240601-0105"
  {
    assert Decimal(20) == Decimal(2) + "0";
    assert Decimal(202) == Decimal(20) + "2";
    assert Decimal(2024) == Decimal(202) + "4";
    assert ZeroPad(2024, 4) == "2024";
    PadExamples();
    assert SlotTime(65) == ClockTime(1, 5);
  }

  /** The time labels of minutes 0, 90 and 1439. */
  lemma TimeLabelExamples()
    ensures SlotLabel(0) == "00:00" && SlotLabel(90) == "01:30" && SlotLabel(1439) == "23:59"
  {
    PadExamples();
    assert SlotTime(90) == ClockTime(1, 30);
    assert SlotTime(1439) == ClockTime(23, 59);
  }
}
