/**
 * The day's summary cards (`DailySummaryCards` in
 * `src/components/SummaryCard.jsx`): the trips of the chosen date, folded
 * into three totals of their stored breakdowns and a trip count.
 */
module DailySummary {
  import opened Wrappers
  import opened Trips

  datatype DailyStats = DailyStats(totalEarnings: real, totalDriverSalary: real, totalCash: real, tripsCount: int)

  /** The reduce's initial accumulator. */
  const NoStats := DailyStats(0.0, 0.0, 0.0, 0)

  /** `b` adds up to `a` plus `c`, field by field. */
  predicate SumOf(b: DailyStats, a: DailyStats, c: DailyStats) {
    && b.totalEarnings == a.totalEarnings + c.totalEarnings
    && b.totalDriverSalary == a.totalDriverSalary + c.totalDriverSalary
    && b.totalCash == a.totalCash + c.totalCash
    && b.tripsCount == a.tripsCount + c.tripsCount
  }

  /** What one trip adds: `calc.x || 0` of its stored breakdown, which is `{}` when missing, and one trip. */
  function Contribution(t: Trip): DailyStats {
    match t.calculations
    case None => DailyStats(0.0, 0.0, 0.0, 1)
    case Some(b) => DailyStats(b.totalEarnings, b.driverSalary, b.cashInHand, 1)
  }

  /** The reduce, left to right over the day's trips: each step returns a fresh accumulator. */
  function Fold(ts: seq<Trip>): DailyStats {
    if ts == [] then NoStats
    else
      var acc, c := Fold(ts[..|ts| - 1]), Contribution(ts[|ts| - 1]);
      DailyStats(acc.totalEarnings + c.totalEarnings, acc.totalDriverSalary + c.totalDriverSalary,
                 acc.totalCash + c.totalCash, acc.tripsCount + 1)
  }

  /** `dailyStats` for the trips of `selectedDate` */
  function DailyStatsOf(trips: seq<Trip>, selectedDate: string): DailyStats {
    Fold(TripsOnDate(trips, selectedDate))
  }

  /** The count is the number of trips folded. */
  lemma {:induction false} FoldCount(ts: seq<Trip>)
    ensures Fold(ts).tripsCount == |ts|
    decreases |ts|
  {
    if ts != [] {
      FoldCount(ts[..|ts| - 1]);
    }
  }

  /** The fold is additive: the stats of a concatenation are the sum of the parts' stats. */
  lemma {:induction false} FoldAppend(a: seq<Trip>, b: seq<Trip>)
    ensures SumOf(Fold(a + b), Fold(a), Fold(b))
    decreases |b|
  {
    if b == [] {
      assert a + b == a;
    } else {
      var init, last := b[..|b| - 1], b[|b| - 1];
      assert (a + b)[..|a + b| - 1] == a + init;
      assert (a + b)[|a + b| - 1] == last;
      FoldAppend(a, init);
    }
  }

  /** A trip of the day without a stored breakdown counts as a trip and adds no money. */
  lemma MissingBreakdownAddsOnlyCount(ts: seq<Trip>, t: Trip)
    requires t.calculations.None?
    ensures Fold(ts + [t]) == Fold(ts).(tripsCount := Fold(ts).tripsCount + 1)
  {
    assert (ts + [t])[..|ts + [t]| - 1] == ts;
  }

  /** Trips none of which carries a breakdown fold to a count and no money. */
  lemma {:induction false} FoldWithoutBreakdowns(ts: seq<Trip>)
    requires forall i :: 0 <= i < |ts| ==> ts[i].calculations.None?
    ensures Fold(ts) == DailyStats(0.0, 0.0, 0.0, |ts|)
    decreases |ts|
  {
    if ts != [] {
      FoldWithoutBreakdowns(ts[..|ts| - 1]);
    }
  }

  /**
   * Cards over trips without stored breakdowns, such as the sheet rows a
   * fetch returns, count the day's trips and show 0 earnings, salary and cash.
   */
  lemma NoBreakdownsOnlyCount(trips: seq<Trip>, selectedDate: string)
    requires forall t :: t in trips ==> t.calculations.None?
    ensures DailyStatsOf(trips, selectedDate) == DailyStats(0.0, 0.0, 0.0, |TripsOnDate(trips, selectedDate)|)
  {
    var day := TripsOnDate(trips, selectedDate);
    TripsOnDateMembers(trips, selectedDate);
    assert forall i :: 0 <= i < |day| ==> day[i] in trips;
    FoldWithoutBreakdowns(day);
  }

  /** The cards count exactly the trips of the chosen date. */
  lemma DailyCount(trips: seq<Trip>, selectedDate: string)
    ensures DailyStatsOf(trips, selectedDate).tripsCount == |TripsOnDate(trips, selectedDate)|
    ensures DailyStatsOf(trips, selectedDate).tripsCount <= |trips|
  {
    FoldCount(TripsOnDate(trips, selectedDate));
  }

  /** The cards of two lists of trips add up. */
  lemma DailyAppend(a: seq<Trip>, b: seq<Trip>, selectedDate: string)
    ensures SumOf(DailyStatsOf(a + b, selectedDate), DailyStatsOf(a, selectedDate), DailyStatsOf(b, selectedDate))
  {
    TripsOnDateAppend(a, b, selectedDate);
    FoldAppend(TripsOnDate(a, selectedDate), TripsOnDate(b, selectedDate));
  }

  /** A trip of another date changes nothing; a trip of this date adds its own contribution. */
  lemma DailyAddTrip(trips: seq<Trip>, t: Trip, selectedDate: string)
    ensures t.date != selectedDate ==> DailyStatsOf(trips + [t], selectedDate) == DailyStatsOf(trips, selectedDate)
    ensures t.date == selectedDate ==> SumOf(DailyStatsOf(trips + [t], selectedDate), DailyStatsOf(trips, selectedDate), Contribution(t))
  {
    TripsOnDateAppend(trips, [t], selectedDate);
    assert TripsOnDate([t], selectedDate) == (if t.date == selectedDate then [t] else []) by {
      assert [t][..0] == [];
    }
    var before := TripsOnDate(trips, selectedDate);
    if t.date == selectedDate {
      assert (before + [t])[..|before + [t]| - 1] == before;
    } else {
      assert before + [] == before;
    }
  }
}
