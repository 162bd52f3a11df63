/**
 * The figures the dashboard derives from a report: the mean of each side's
 * win flag per hour, grouping rows by the first two characters of the time
 * label, and the mean of each side's win flag over the whole report. Means are
 * exact ratios of integers, not floating-point numbers.
 */
module Trends {
  import opened Wrappers
  import opened Digits
  import opened Schedule
  import opened Predictions

  datatype Side = Player | Banker

  /** The 'Victoire Joueur' or 'Victoire Banquier' column of a row. */
  function Win(s: Slot, side: Side): int
  {
    match side
    case Player => s.outcome.playerWin
    case Banker => s.outcome.bankerWin
  }

  /** `predictions_df['Heure'].str[:2]`: the first two characters, or all of a shorter label. */
  function HourKey(s: Slot): string
  {
    if |s.time| >= 2 then s.time[..2] else s.time
  }

  /** The group keys that occur in a report. */
  function Keys(rows: seq<Slot>): set<string>
  {
    set i | 0 <= i < |rows| :: HourKey(rows[i])
  }

  /** The number of rows whose key is `key`. */
  function GroupSize(rows: seq<Slot>, key: string): nat
  {
    if rows == [] then 0
    else (if HourKey(rows[0]) == key then 1 else 0) + GroupSize(rows[1..], key)
  }

  /** The sum of one side's win flags over the rows whose key is `key`. */
  function GroupWins(rows: seq<Slot>, key: string, side: Side): int
  {
    if rows == [] then 0
    else (if HourKey(rows[0]) == key then Win(rows[0], side) else 0) + GroupWins(rows[1..], key, side)
  }

  /** The sum of one side's win flags over all rows. */
  function TotalWins(rows: seq<Slot>, side: Side): int
  {
    if rows == [] then 0 else Win(rows[0], side) + TotalWins(rows[1..], side)
  }

  /** The number of rows whose win flag for `side` is 1. */
  function CountOnes(rows: seq<Slot>, side: Side): nat
  {
    if rows == [] then 0 else (if Win(rows[0], side) == 1 then 1 else 0) + CountOnes(rows[1..], side)
  }

  /** The mean of one side's win flag within the group `key`, which is never empty. */
  function GroupMean(rows: seq<Slot>, key: string, side: Side): real
    requires key in Keys(rows)
  {
    GroupNotEmpty(rows, key);
    GroupWins(rows, key, side) as real / GroupSize(rows, key) as real
  }

  /** One row of the hourly chart: the mean win flag of each side. */
  datatype HourlyRate = HourlyRate(player: real, banker: real)

  /** The `groupby(...).agg({... 'mean'})` table, keyed by the two-character hour. */
  function HourlyWins(rows: seq<Slot>): map<string, HourlyRate>
  {
    map key | key in Keys(rows) :: HourlyRate(GroupMean(rows, key, Player), GroupMean(rows, key, Banker))
  }

  /** The mean of a side's win column; `None` for an empty table, where pandas gives NaN. */
  function OverallMean(rows: seq<Slot>, side: Side): Option<real>
  {
    if rows == [] then None else Some(TotalWins(rows, side) as real / |rows| as real)
  }

  /** The two-character keys of the 24 hours, in hour order. */
  function HourKeys(): seq<string>
  {
    seq(HoursPerDay, (h: int) requires 0 <= h => ZeroPad(h, 2))
  }

  /** Both win columns hold only 0 and 1. */
  predicate BinaryWins(rows: seq<Slot>)
  {
    forall i :: 0 <= i < |rows| ==> IsBinary(rows[i].outcome.playerWin) && IsBinary(rows[i].outcome.bankerWin)
  }

  lemma {:induction false} GroupNotEmpty(rows: seq<Slot>, key: string)
    requires key in Keys(rows)
    ensures GroupSize(rows, key) > 0
  {
    if HourKey(rows[0]) != key {
      var i :| 0 <= i < |rows| && HourKey(rows[i]) == key;
      assert HourKey(rows[1..][i - 1]) == key;
      GroupNotEmpty(rows[1..], key);
    }
  }

  lemma {:induction false} SumsSplit(a: seq<Slot>, b: seq<Slot>, key: string, side: Side)
    ensures GroupSize(a + b, key) == GroupSize(a, key) + GroupSize(b, key)
    ensures GroupWins(a + b, key, side) == GroupWins(a, key, side) + GroupWins(b, key, side)
    ensures TotalWins(a + b, side) == TotalWins(a, side) + TotalWins(b, side)
  {
    if a == [] {
      assert a + b == b;
    } else {
      assert (a + b)[0] == a[0] && (a + b)[1..] == a[1..] + b;
      SumsSplit(a[1..], b, key, side);
    }
  }

  /** A run of rows that all carry `key` forms a group of its full length and total. */
  lemma {:induction false} UniformRun(rows: seq<Slot>, key: string, side: Side)
    requires forall i :: 0 <= i < |rows| ==> HourKey(rows[i]) == key
    ensures GroupSize(rows, key) == |rows| && GroupWins(rows, key, side) == TotalWins(rows, side)
  {
    if rows != [] {
      assert forall i :: 0 <= i < |rows| - 1 ==> rows[1..][i] == rows[i + 1];
      UniformRun(rows[1..], key, side);
    }
  }

  /** Rows none of which carries `key` add nothing to its group. */
  lemma {:induction false} ForeignRun(rows: seq<Slot>, key: string, side: Side)
    requires forall i :: 0 <= i < |rows| ==> HourKey(rows[i]) != key
    ensures GroupSize(rows, key) == 0 && GroupWins(rows, key, side) == 0
  {
    if rows != [] {
      assert forall i :: 0 <= i < |rows| - 1 ==> rows[1..][i] == rows[i + 1];
      ForeignRun(rows[1..], key, side);
    }
  }

  /** Row `i` of a report falls in the group of its hour, `i / 60`. */
  lemma RowKey(report: seq<Slot>, d: Date, i: nat)
    requires Scheduled(report, d) && i < |report|
    ensures HourKey(report[i]) == ZeroPad(i / MinutesPerHour, 2)
  {
    var t := SlotTime(i);
    TwoDigits(t.hour);
    TwoDigits(t.minute);
    assert report[i].time == ZeroPad(t.hour, 2) + ":" + ZeroPad(t.minute, 2);
  }

  /** Every row of the 1440 is keyed by the two digits of its hour. */
  predicate HourKeyed(report: seq<Slot>)
  {
    |report| == TotalMinutes
    && forall i :: 0 <= i < |report| ==> HourKey(report[i]) == ZeroPad(i / MinutesPerHour, 2)
  }

  lemma ScheduledIsHourKeyed(report: seq<Slot>, d: Date)
    requires Scheduled(report, d)
    ensures HourKeyed(report)
  {
    forall i | 0 <= i < |report| ensures HourKey(report[i]) == ZeroPad(i / MinutesPerHour, 2) {
      RowKey(report, d, i);
    }
  }

  /** Where a minute of the day falls relative to the block of hour `h`. */
  lemma HourOfMinute(i: nat, h: nat)
    ensures i < h * MinutesPerHour ==> i / MinutesPerHour < h
    ensures h * MinutesPerHour <= i < h * MinutesPerHour + MinutesPerHour ==> i / MinutesPerHour == h
    ensures h * MinutesPerHour + MinutesPerHour <= i ==> i / MinutesPerHour > h
  {
    var t := SlotTime(i);
    SlotTimeUnique(i, t.hour, t.minute);
    if t.hour < h {
      assert i < (t.hour + 1) * 60 <= h * 60;
    } else if t.hour > h {
      assert i >= t.hour * 60 >= (h + 1) * 60;
    }
  }

  /** Two-digit keys of different hours differ. */
  lemma KeysOfHoursDiffer(h: nat, g: nat)
    requires h < 100 && g < 100 && h != g
    ensures ZeroPad(h, 2) != ZeroPad(g, 2)
  {
    TwoDigits(h);
    TwoDigits(g);
  }

  /**
   * The group of hour `h` in a report is exactly its 60 rows `60 * h` up to
   * `60 * h + 59`, so its size is 60 and its win total is theirs.
   */
  lemma HourGroup(report: seq<Slot>, h: nat, side: Side)
    requires HourKeyed(report) && h < HoursPerDay
    ensures GroupSize(report, ZeroPad(h, 2)) == MinutesPerHour
    ensures GroupWins(report, ZeroPad(h, 2), side) == TotalWins(HourRows(report, h), side)
  {
    var key := ZeroPad(h, 2);
    var lo, hi := h * MinutesPerHour, h * MinutesPerHour + MinutesPerHour;
    var before, during, after := report[..lo], report[lo..hi], report[hi..];
    assert report == before + during + after;
    KeysBefore(report, h);
    KeysDuring(report, h);
    KeysAfter(report, h);
    BlockGroup(before, during, after, key, side);
  }

  /** A run keyed `key` between two runs that carry other keys is the whole group of `key`. */
  lemma BlockGroup(before: seq<Slot>, during: seq<Slot>, after: seq<Slot>, key: string, side: Side)
    requires forall i :: 0 <= i < |before| ==> HourKey(before[i]) != key
    requires forall i :: 0 <= i < |during| ==> HourKey(during[i]) == key
    requires forall i :: 0 <= i < |after| ==> HourKey(after[i]) != key
    ensures GroupSize(before + during + after, key) == |during|
    ensures GroupWins(before + during + after, key, side) == TotalWins(during, side)
  {
    ForeignRun(before, key, side);
    UniformRun(during, key, side);
    ForeignRun(after, key, side);
    SumsSplit(before, during, key, side);
    SumsSplit(before + during, after, key, side);
  }

  lemma KeysBefore(report: seq<Slot>, h: nat)
    requires HourKeyed(report) && h < HoursPerDay
    ensures forall i :: 0 <= i < |report[..h * MinutesPerHour]| ==> HourKey(report[..h * MinutesPerHour][i]) != ZeroPad(h, 2)
  {
    var before := report[..h * MinutesPerHour];
    forall i | 0 <= i < |before| ensures HourKey(before[i]) != ZeroPad(h, 2) {
      assert before[i] == report[i];
      HourOfMinute(i, h);
      KeysOfHoursDiffer(i / MinutesPerHour, h);
    }
  }

  lemma KeysDuring(report: seq<Slot>, h: nat)
    requires HourKeyed(report) && h < HoursPerDay
    ensures forall i :: 0 <= i < |HourRows(report, h)| ==> HourKey(HourRows(report, h)[i]) == ZeroPad(h, 2)
  {
    var lo := h * MinutesPerHour;
    var during := HourRows(report, h);
    forall i | 0 <= i < |during| ensures HourKey(during[i]) == ZeroPad(h, 2) {
      assert during[i] == report[lo + i];
      HourOfMinute(lo + i, h);
    }
  }

  lemma KeysAfter(report: seq<Slot>, h: nat)
    requires HourKeyed(report) && h < HoursPerDay
    ensures var hi := h * MinutesPerHour + MinutesPerHour;
      forall i :: 0 <= i < |report[hi..]| ==> HourKey(report[hi..][i]) != ZeroPad(h, 2)
  {
    var hi := h * MinutesPerHour + MinutesPerHour;
    var after := report[hi..];
    forall i | 0 <= i < |after| ensures HourKey(after[i]) != ZeroPad(h, 2) {
      assert after[i] == report[hi + i];
      HourOfMinute(hi + i, h);
      KeysOfHoursDiffer((hi + i) / MinutesPerHour, h);
    }
  }

  /** The 60 rows of hour `h`. */
  function HourRows(report: seq<Slot>, h: nat): seq<Slot>
    requires h < HoursPerDay && |report| == TotalMinutes
  {
    report[h * MinutesPerHour .. h * MinutesPerHour + MinutesPerHour]
  }

  /** The keys that occur in a report are exactly the 24 two-digit hours. */
  lemma ReportKeys(report: seq<Slot>)
    requires HourKeyed(report)
    ensures Keys(report) == set k | k in HourKeys()
  {
    forall k | k in Keys(report) ensures k in HourKeys() {
      var i :| 0 <= i < |report| && HourKey(report[i]) == k;
      assert HourKeys()[i / MinutesPerHour] == k;
    }
    forall k | k in HourKeys() ensures k in Keys(report) {
      var h :| 0 <= h < HoursPerDay && HourKeys()[h] == k;
      var i := h * MinutesPerHour;
      assert i / MinutesPerHour == h;
      assert HourKey(report[i]) == k;
    }
  }

  /** The hour keys increase in Python's string order, which is the order groupby sorts them in. */
  lemma HourKeysIncrease()
    ensures forall g, h :: 0 <= g < h < HoursPerDay ==> LexLess(HourKeys()[g], HourKeys()[h])
  {
    forall g, h | 0 <= g < h < HoursPerDay ensures LexLess(HourKeys()[g], HourKeys()[h]) {
      TwoDigits(g);
      TwoDigits(h);
      LexLessOfValue(ZeroPad(g, 2), ZeroPad(h, 2));
    }
  }

  lemma {:induction false} DistinctCard(s: seq<string>)
    requires forall i, j :: 0 <= i < j < |s| ==> s[i] != s[j]
    ensures |set x | x in s| == |s|
  {
    if s != [] {
      var rest := s[1..];
      assert forall i, j :: 0 <= i < j < |rest| ==> rest[i] == s[i + 1] && rest[j] == s[j + 1];
      DistinctCard(rest);
      assert (set x | x in s) == {s[0]} + (set x | x in rest);
      assert s[0] !in (set x | x in rest);
    }
  }

  /** The hourly table of a report has one row per hour: 24 keys, each two-digit hour. */
  lemma HourlyTableShape(report: seq<Slot>, d: Date)
    requires Scheduled(report, d)
    ensures HourlyWins(report).Keys == set k | k in HourKeys()
    ensures |HourlyWins(report)| == HoursPerDay
  {
    ScheduledIsHourKeyed(report, d);
    ReportKeys(report);
    HourKeysIncrease();
    forall i, j | 0 <= i < j < |HourKeys()| ensures HourKeys()[i] != HourKeys()[j] {
      if HourKeys()[i] == HourKeys()[j] {
        LexLessIrreflexive(HourKeys()[i]);
      }
    }
    DistinctCard(HourKeys());
    assert HourlyWins(report).Keys == Keys(report);
  }

  /** Each hour's mean is the win total of its 60 rows divided by 60. */
  lemma HourlyMean(report: seq<Slot>, d: Date, h: nat)
    requires Scheduled(report, d) && h < HoursPerDay
    ensures ZeroPad(h, 2) in HourlyWins(report)
    ensures HourlyWins(report)[ZeroPad(h, 2)].player == TotalWins(HourRows(report, h), Player) as real / 60.0
    ensures HourlyWins(report)[ZeroPad(h, 2)].banker == TotalWins(HourRows(report, h), Banker) as real / 60.0
  {
    ScheduledIsHourKeyed(report, d);
    ReportKeys(report);
    assert HourKeys()[h] == ZeroPad(h, 2);
    HourGroup(report, h, Player);
    HourGroup(report, h, Banker);
  }

  /** Over 0/1 flags a win total lies between 0 and the number of rows. */
  lemma {:induction false} TotalWinsBounds(rows: seq<Slot>, side: Side)
    requires BinaryWins(rows)
    ensures 0 <= TotalWins(rows, side) <= |rows|
  {
    if rows != [] {
      assert forall i :: 0 <= i < |rows| - 1 ==> rows[1..][i] == rows[i + 1];
      TotalWinsBounds(rows[1..], side);
    }
  }

  /** A run of rows whose flags are all 1 has a win total equal to its length. */
  lemma {:induction false} TotalWinsAllOnes(rows: seq<Slot>, side: Side)
    requires forall i :: 0 <= i < |rows| ==> Win(rows[i], side) == 1
    ensures TotalWins(rows, side) == |rows|
  {
    if rows != [] {
      assert forall i :: 0 <= i < |rows| - 1 ==> rows[1..][i] == rows[i + 1];
      TotalWinsAllOnes(rows[1..], side);
    }
  }

  function HourMean(report: seq<Slot>, d: Date, h: nat, side: Side): real
    requires Scheduled(report, d) && h < HoursPerDay
  {
    HourlyMean(report, d, h);
    var rate := HourlyWins(report)[ZeroPad(h, 2)];
    if side == Player then rate.player else rate.banker
  }

  /** Over 0/1 flags the win total is the number of 1-flags. */
  lemma {:induction false} TotalWinsCountsOnes(rows: seq<Slot>, side: Side)
    requires BinaryWins(rows)
    ensures TotalWins(rows, side) == CountOnes(rows, side)
  {
    if rows != [] {
      assert forall i :: 0 <= i < |rows| - 1 ==> rows[1..][i] == rows[i + 1];
      TotalWinsCountsOnes(rows[1..], side);
    }
  }

  /**
   * With 0/1 flags, every hourly mean is the number of 1-flags among the
   * hour's 60 rows over 60, and so lies in [0, 1].
   */
  lemma HourlyMeanBounds(report: seq<Slot>, d: Date, h: nat, side: Side)
    requires Scheduled(report, d) && h < HoursPerDay && BinaryWins(report)
    ensures HourMean(report, d, h, side) == CountOnes(HourRows(report, h), side) as real / 60.0
    ensures 0.0 <= HourMean(report, d, h, side) <= 1.0
  {
    HourlyMean(report, d, h);
    var rows := HourRows(report, h);
    assert BinaryWins(rows) by {
      assert forall i :: 0 <= i < |rows| ==> rows[i] == report[h * MinutesPerHour + i];
    }
    TotalWinsBounds(rows, side);
    TotalWinsCountsOnes(rows, side);
  }

  /** An hour whose 60 win flags are all 1 has mean exactly 1. */
  lemma HourlyMeanAllOnes(report: seq<Slot>, d: Date, h: nat, side: Side)
    requires Scheduled(report, d) && h < HoursPerDay
    requires forall i :: h * MinutesPerHour <= i < h * MinutesPerHour + MinutesPerHour ==> Win(report[i], side) == 1
    ensures HourMean(report, d, h, side) == 1.0
  {
    HourlyMean(report, d, h);
    var rows := HourRows(report, h);
    forall i | 0 <= i < |rows| ensures Win(rows[i], side) == 1 {
      assert rows[i] == report[h * MinutesPerHour + i];
    }
    TotalWinsAllOnes(rows, side);
  }

  /** With 0/1 flags the overall mean of a non-empty report lies in [0, 1]. */
  lemma OverallMeanBounds(rows: seq<Slot>, side: Side)
    requires BinaryWins(rows)
    ensures rows != [] <==> OverallMean(rows, side).Some?
    ensures rows != [] ==> 0.0 <= OverallMean(rows, side).value <= 1.0
  {
    TotalWinsBounds(rows, side);
  }

  /** A simulated report has 0/1 win flags, so its means obey the bounds above. */
  lemma SimulatedReportBinary(report: seq<Slot>)
    requires forall i :: 0 <= i < |report| ==> IsSimulated(report[i].outcome)
    ensures BinaryWins(report)
  {
  }
}
