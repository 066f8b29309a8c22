/**
 * calculate_changes, load_change_indicator and the integer part of calc_and_save_data:
 * trend statistics over a series of daily values, oldest first.
 *
 * Three windows of day-to-day changes are summed: "week" is the changes among the
 * last min(7, n) values (at most 6 changes), "month" among the last min(28, n)
 * values (at most 27), both newest first, and "total" is every change, oldest first.
 */
module Changes {
  import opened Basics
  import opened Series

  const Week := 7
  const Month := 28

  const Up := "↑"
  const Down := "↓"
  const Steady := "●"

  /** `[values[-i] - values[-i-1] for i in range(1, min(w, n))]`: the changes among the last min(w, n) values, newest first. */
  function RecentChanges(values: seq<int>, w: nat): seq<int>
  {
    var m := Min(w, |values|);
    if m <= 1 then []
    else seq(m - 1, k requires 0 <= k < m - 1 => values[|values| - 1 - k] - values[|values| - 2 - k])
  }

  /** `[values[i] - values[i-1] for i in range(1, n)]`: every change, oldest first. */
  function TotalChanges(values: seq<int>): seq<int>
  {
    if |values| <= 1 then []
    else seq(|values| - 1, k requires 0 <= k < |values| - 1 => values[k + 1] - values[k])
  }

  function Sum(cs: seq<int>): int
  {
    if cs == [] then 0 else Sum(cs[..|cs| - 1]) + cs[|cs| - 1]
  }

  /** `sum(c for c in cs if c > 0)` */
  function AddedSum(cs: seq<int>): (r: int)
    ensures r >= 0
  {
    if cs == [] then 0
    else AddedSum(cs[..|cs| - 1]) + (if cs[|cs| - 1] > 0 then cs[|cs| - 1] else 0)
  }

  /** `sum(c for c in cs if c < 0)` */
  function RemovedSum(cs: seq<int>): (r: int)
    ensures r <= 0
  {
    if cs == [] then 0
    else RemovedSum(cs[..|cs| - 1]) + (if cs[|cs| - 1] < 0 then cs[|cs| - 1] else 0)
  }

  /** The dictionary calculate_changes returns: empty for an empty series, otherwise the point differences and the added/removed sums of the three windows. */
  datatype ChangeReport =
    | NoValues
    | Report(lastDayDifference: int, lastWeekDifference: int, lastMonthDifference: int, totalDifference: int,
             lastWeekAdded: int, lastWeekRemoved: int,
             lastMonthAdded: int, lastMonthRemoved: int,
             totalAdded: int, totalRemoved: int)

  /** `values[-1] - values[-back] if len(values) > longerThan else 0` */
  function PointDifference(values: seq<int>, back: nat, longerThan: nat): int
    requires 1 <= back <= longerThan + 1
  {
    if |values| > longerThan then values[|values| - 1] - values[|values| - back] else 0
  }

  function CalculateChanges(values: seq<int>): (r: ChangeReport)
    ensures r.NoValues? <==> values == []
    ensures r.Report? ==> r.lastWeekAdded >= 0 && r.lastMonthAdded >= 0 && r.totalAdded >= 0
    ensures r.Report? ==> r.lastWeekRemoved <= 0 && r.lastMonthRemoved <= 0 && r.totalRemoved <= 0
  {
    if values == [] then NoValues
    else
      var n := |values|;
      var week := RecentChanges(values, Week);
      var month := RecentChanges(values, Month);
      var total := TotalChanges(values);
      Report(
        lastDayDifference := PointDifference(values, 2, 1),
        lastWeekDifference := PointDifference(values, Week, Week),
        lastMonthDifference := PointDifference(values, Month, Month),
        totalDifference := values[n - 1] - values[0],
        lastWeekAdded := AddedSum(week), lastWeekRemoved := RemovedSum(week),
        lastMonthAdded := AddedSum(month), lastMonthRemoved := RemovedSum(month),
        totalAdded := AddedSum(total), totalRemoved := RemovedSum(total))
  }

  /** load_change_indicator: the direction of the last day's change, or "" with fewer than two values. */
  function ChangeIndicator(values: seq<int>): (g: string)
    ensures g in {"", Up, Down, Steady}
  {
    var n := |values|;
    if n > 1 then
      if values[n - 1] > values[n - 2] then Up
      else if values[n - 1] < values[n - 2] then Down
      else Steady
    else ""
  }

  /** divmod(m, 60): whole hours and the remaining minutes. Python floors and Dafny's division is Euclidean; for the positive divisor 60 they agree. */
  function SplitHours(m: int): (hm: (int, int))
    ensures hm.0 * MinutesPerHour + hm.1 == m
    ensures 0 <= hm.1 < MinutesPerHour
  {
    (m / MinutesPerHour, m % MinutesPerHour)
  }

  // ---------------------------------------------------------------------------
  // Sums over change lists

  function Reverse(s: seq<int>): (r: seq<int>)
  {
    seq(|s|, k requires 0 <= k < |s| => s[|s| - 1 - k])
  }

  /** Sums split over concatenation. */
  lemma {:induction false} SplitSums(a: seq<int>, b: seq<int>)
    ensures Sum(a + b) == Sum(a) + Sum(b)
    ensures AddedSum(a + b) == AddedSum(a) + AddedSum(b)
    ensures RemovedSum(a + b) == RemovedSum(a) + RemovedSum(b)
    decreases |b|
  {
    if b == [] {
      assert a + b == a;
    } else {
      var b' := b[..|b| - 1];
      assert (a + b)[..|a + b| - 1] == a + b';
      SplitSums(a, b');
    }
  }

  /** Every change is either added or removed: the two sums together are the net change. */
  lemma {:induction false} AddedPlusRemoved(cs: seq<int>)
    ensures AddedSum(cs) + RemovedSum(cs) == Sum(cs)
    decreases |cs|
  {
    if cs != [] {
      AddedPlusRemoved(cs[..|cs| - 1]);
    }
  }

  /** Order does not matter to any of the sums. */
  lemma {:induction false} ReverseSums(s: seq<int>)
    ensures Sum(Reverse(s)) == Sum(s)
    ensures AddedSum(Reverse(s)) == AddedSum(s)
    ensures RemovedSum(Reverse(s)) == RemovedSum(s)
    decreases |s|
  {
    if s != [] {
      var init := s[..|s| - 1];
      var last := s[|s| - 1];
      assert Reverse(s) == [last] + Reverse(init);
      ReverseSums(init);
      SplitSums([last], Reverse(init));
      assert [last][..0] == [];
    }
  }

  /** The total changes of a suffix of the series are the matching suffix of its total changes. */
  lemma SuffixChanges(values: seq<int>, j: nat)
    requires j < |values|
    ensures TotalChanges(values)[j..] == TotalChanges(values[j..])
  {
    var tail := values[j..];
    var all, changes := TotalChanges(values), TotalChanges(tail);
    if |tail| > 1 {
      assert |all| == |values| - 1 && |changes| == |tail| - 1;
      forall k | 0 <= k < |changes|
        ensures all[j + k] == changes[k]
      {
        assert tail[k + 1] == values[j + k + 1] && tail[k] == values[j + k];
      }
      assert all[j..] == changes;
    }
  }

  /** Day-to-day changes telescope: their sum is the last value minus the first. */
  lemma {:induction false} Telescope(values: seq<int>)
    requires |values| > 0
    ensures Sum(TotalChanges(values)) == values[|values| - 1] - values[0]
    decreases |values|
  {
    if |values| > 1 {
      var init := values[..|values| - 1];
      var tc := TotalChanges(values);
      assert tc[..|tc| - 1] == TotalChanges(init);
      Telescope(init);
    }
  }

  /** A recent window is the reversed suffix of the total changes. */
  lemma RecentIsReversedSuffix(values: seq<int>, w: nat)
    requires |values| > 0 && w >= 1
    ensures RecentChanges(values, w) == Reverse(TotalChanges(values)[|values| - Min(w, |values|)..])
  {
    var n := |values|;
    var rc := RecentChanges(values, w);
    var tc := TotalChanges(values);
    var sfx := tc[n - Min(w, n)..];
    var rs := Reverse(sfx);
    assert |rc| == |sfx| == |rs|;
    forall k | 0 <= k < |rc|
      ensures rc[k] == rs[k]
    {
      assert rc[k] == values[n - 1 - k] - values[n - 2 - k];
      assert rs[k] == sfx[|sfx| - 1 - k] == tc[n - 2 - k];
    }
  }

  /** The changes of a recent window add up to the last value minus the window's first value. */
  lemma RecentNet(values: seq<int>, w: nat)
    requires |values| > 0 && w >= 1
    ensures Sum(RecentChanges(values, w)) == values[|values| - 1] - values[|values| - Min(w, |values|)]
  {
    var n := |values|;
    var j := n - Min(w, n);
    RecentIsReversedSuffix(values, w);
    ReverseSums(TotalChanges(values)[j..]);
    SuffixChanges(values, j);
    Telescope(values[j..]);
  }

  /** A narrower window is a prefix of a wider one (both newest first). */
  lemma RecentPrefix(values: seq<int>, w1: nat, w2: nat)
    requires w1 <= w2
    ensures RecentChanges(values, w1) == RecentChanges(values, w2)[..|RecentChanges(values, w1)|]
  {
  }

  /** Growing a change list can only grow what was added and what was removed. */
  lemma PrefixSums(a: seq<int>, b: seq<int>)
    ensures AddedSum(a) <= AddedSum(a + b)
    ensures RemovedSum(a) >= RemovedSum(a + b)
  {
    SplitSums(a, b);
  }

  // ---------------------------------------------------------------------------
  // Properties of the report

  /** The total window telescopes: total_added + total_removed == total_difference. */
  lemma TotalSumsTelescope(values: seq<int>)
    requires values != []
    ensures CalculateChanges(values).totalAdded + CalculateChanges(values).totalRemoved
         == CalculateChanges(values).totalDifference
  {
    AddedPlusRemoved(TotalChanges(values));
    Telescope(values);
  }

  /** Each recent window's added and removed sums net to the change across the window; past 7 (28) values that is last_week_difference (last_month_difference). */
  lemma WindowSumsNet(values: seq<int>)
    requires values != []
    ensures var r, n := CalculateChanges(values), |values|;
            && r.lastWeekAdded + r.lastWeekRemoved == values[n - 1] - values[n - Min(Week, n)]
            && r.lastMonthAdded + r.lastMonthRemoved == values[n - 1] - values[n - Min(Month, n)]
            && (n > Week ==> r.lastWeekDifference == r.lastWeekAdded + r.lastWeekRemoved)
            && (n > Month ==> r.lastMonthDifference == r.lastMonthAdded + r.lastMonthRemoved)
  {
    WindowNet(values, Week);
    WindowNet(values, Month);
  }

  /** The point differences below and above their thresholds: 0 up to the threshold, the change across the window past it. */
  lemma PointDifferences(values: seq<int>)
    requires values != []
    ensures var r, n := CalculateChanges(values), |values|;
            && (n == 1 ==> r.lastDayDifference == 0)
            && (n > 1 ==> r.lastDayDifference == values[n - 1] - values[n - 2] == RecentChanges(values, Week)[0])
            && (n <= Week ==> r.lastWeekDifference == 0)
            && (n > Week ==> r.lastWeekDifference == values[n - 1] - values[n - Week])
            && (n <= Month ==> r.lastMonthDifference == 0)
            && (n > Month ==> r.lastMonthDifference == values[n - 1] - values[n - Month])
  {
  }

  /**
   * Up to 7 values, last_week_difference stays 0 while the week sums still net the change
   * across the whole series. At exactly 7 values `values[-7]` exists, yet the guard
   * `len(values) > 7` reports no difference.
   */
  lemma ShortSeriesDifferences(values: seq<int>)
    requires 1 < |values| <= Week
    ensures var r, n := CalculateChanges(values), |values|;
            && r.lastWeekDifference == 0
            && r.lastWeekAdded + r.lastWeekRemoved == values[n - 1] - values[0]
  {
    WindowNet(values, Week);
  }

  /** Seven values 0..6: last_week_difference is 0, but the week window added 6. */
  lemma QuirkSevenValues()
    ensures CalculateChanges([0, 1, 2, 3, 4, 5, 6]).lastWeekDifference == 0
    ensures CalculateChanges([0, 1, 2, 3, 4, 5, 6]).lastWeekAdded == 6
    ensures CalculateChanges([0, 1, 2, 3, 4, 5, 6]).lastWeekRemoved == 0
  {
    var v := [0, 1, 2, 3, 4, 5, 6];
    ShortSeriesDifferences(v);
    var week := RecentChanges(v, Week);
    assert forall k | 0 <= k < |week| :: week[k] == 1;
    RemovedOfPositive(week);
  }

  /** A change list with no negative change removed nothing. */
  lemma {:induction false} RemovedOfPositive(cs: seq<int>)
    requires forall k | 0 <= k < |cs| :: cs[k] >= 0
    ensures RemovedSum(cs) == 0
    decreases |cs|
  {
    if cs != [] {
      RemovedOfPositive(cs[..|cs| - 1]);
    }
  }

  /** The added and removed sums of a recent window together are the last value minus the window's first value. */
  lemma WindowNet(values: seq<int>, w: nat)
    requires |values| > 0 && w >= 1
    ensures AddedSum(RecentChanges(values, w)) + RemovedSum(RecentChanges(values, w))
         == values[|values| - 1] - values[|values| - Min(w, |values|)]
  {
    AddedPlusRemoved(RecentChanges(values, w));
    RecentNet(values, w);
  }

  /** The windows are nested, so week <= month <= total for the added sums and the reverse for the removed sums. */
  lemma WindowsNested(values: seq<int>)
    requires values != []
    ensures var r := CalculateChanges(values);
            && r.lastWeekAdded <= r.lastMonthAdded <= r.totalAdded
            && r.lastWeekRemoved >= r.lastMonthRemoved >= r.totalRemoved
  {
    var n := |values|;
    var week, month, total := RecentChanges(values, Week), RecentChanges(values, Month), TotalChanges(values);
    RecentPrefix(values, Week, Month);
    assert month == week + month[|week|..];
    PrefixSums(week, month[|week|..]);
    var j := n - Min(Month, n);
    RecentIsReversedSuffix(values, Month);
    ReverseSums(total[j..]);
    assert total == total[..j] + total[j..];
    SplitSums(total[..j], total[j..]);
  }

  /** The window lengths as the code has them: min(7, n) - 1 and min(28, n) - 1 changes, n - 1 in total. */
  lemma WindowLengths(values: seq<int>)
    requires values != []
    ensures |RecentChanges(values, Week)| == Min(Week, |values|) - 1
    ensures |RecentChanges(values, Month)| == Min(Month, |values|) - 1
    ensures |TotalChanges(values)| == |values| - 1
  {
  }

  /** The indicator agrees with last_day_difference: up, down or steady by its sign, and "" (not steady) for a single value. */
  lemma IndicatorFollowsDayDifference(values: seq<int>)
    requires values != []
    ensures var g, d := ChangeIndicator(values), CalculateChanges(values).lastDayDifference;
            && (g == "" <==> |values| == 1)
            && (|values| > 1 ==> (g == Up <==> d > 0) && (g == Down <==> d < 0) && (g == Steady <==> d == 0))
  {
  }

  /** The documented series [1, 2, 2, 5]. */
  lemma ExampleSeries()
    ensures CalculateChanges([1, 2, 2, 5]).lastDayDifference == 3
    ensures CalculateChanges([1, 2, 2, 5]).totalDifference == 4
    ensures CalculateChanges([1, 2, 2, 5]).totalAdded == 4
    ensures CalculateChanges([1, 2, 2, 5]).totalRemoved == 0
    ensures ChangeIndicator([1, 2, 2, 5]) == Up
  {
    var v := [1, 2, 2, 5];
    var total := TotalChanges(v);
    assert total == [1, 0, 3];
    assert total[..2] == [1, 0] && total[..2][..1] == [1] && [1][..0] == [];
    assert AddedSum([1]) == 1 && RemovedSum([1]) == 0;
    assert AddedSum([1, 0]) == 1 && RemovedSum([1, 0]) == 0;
    assert AddedSum(total) == 4 && RemovedSum(total) == 0;
  }

  /** A single value: no differences and no indicator. */
  lemma ExampleSingleValue()
    ensures CalculateChanges([5]).totalDifference == 0
    ensures CalculateChanges([5]).lastDayDifference == 0
    ensures ChangeIndicator([5]) == ""
  {
  }

  // ---------------------------------------------------------------------------
  // calc_and_save_data

  /** The integer fields calc_and_save_data stores: both change reports with their indicators, the latest video count, and the latest minutes split into hours and minutes. */
  datatype Summary = Summary(
    videoChanges: ChangeReport, videoIndicator: string,
    currentVideos: int, currentHours: int, currentMinutes: int,
    minuteChanges: ChangeReport, minuteIndicator: string)

  /** The caller passes the full view of a non-empty series; `video_counts[-1]` fails otherwise. */
  function CalcSummary(full: PointLists): (s: Summary)
    requires |full.videoCountPoints| > 0 && |full.totalMinutesPoints| > 0
    ensures s.videoChanges.Report? && s.minuteChanges.Report?
    ensures s.currentVideos == full.videoCountPoints[|full.videoCountPoints| - 1].y
    ensures s.currentHours * MinutesPerHour + s.currentMinutes == full.totalMinutesPoints[|full.totalMinutesPoints| - 1].y
    ensures 0 <= s.currentMinutes < MinutesPerHour
  {
    var videoCounts := Ys(full.videoCountPoints);
    var totalMinutes := Ys(full.totalMinutesPoints);
    var hm := SplitHours(totalMinutes[|totalMinutes| - 1]);
    Summary(
      CalculateChanges(videoCounts), ChangeIndicator(videoCounts),
      videoCounts[|videoCounts| - 1], hm.0, hm.1,
      CalculateChanges(totalMinutes), ChangeIndicator(totalMinutes))
  }
}
