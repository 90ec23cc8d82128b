/**
 * The dashboard overview: the summary figures with their defaults, the
 * revenue chart built from the day, week or month series, and the three
 * "new bookings" entries of the radial chart.
 *
 * The statistics request is not part of the model: the statistics record is
 * a parameter. Amounts are integers.
 */
module Dashboard {
  import opened Common

  datatype ChartRange = Day | Week | Month

  datatype DayRevenue = DayRevenue(date: string, revenue: int)
  datatype WeekRevenue = WeekRevenue(week: string, revenue: int)
  datatype MonthRevenue = MonthRevenue(month: string, revenue: int)

  datatype CoachRevenue = CoachRevenue(day: seq<DayRevenue>, week: seq<WeekRevenue>, month: seq<MonthRevenue>)

  datatype NewBookings = NewBookings(thisDay: int, thisWeek: int, thisMonth: int, thisYear: int)

  /** The summary as received; any of its fields may be missing. */
  datatype Summary = Summary(
    totalCoachEarning: Option<int>, totalBookings: Option<int>, newBookings: Option<NewBookings>)

  datatype Stats = Stats(summary: Summary, coachRevenue: CoachRevenue)

  const NoNewBookings := NewBookings(0, 0, 0, 0)

  /** `x ?? d`. */
  function OrElse<T>(x: Option<T>, d: T): (r: T)
    ensures x.Some? ==> r == x.value
    ensures x.None? ==> r == d
  {
    if x.Some? then x.value else d
  }

  function TotalRevenue(stats: Stats): int
  {
    OrElse(stats.summary.totalCoachEarning, 0)
  }

  function TotalBooking(stats: Stats): int
  {
    OrElse(stats.summary.totalBookings, 0)
  }

  function NewBookingCounts(stats: Stats): NewBookings
  {
    OrElse(stats.summary.newBookings, NoNewBookings)
  }

  /** Missing summary figures show as zero; present ones as received. */
  lemma SummaryDefaults(stats: Stats)
    ensures stats.summary.totalCoachEarning.None? ==> TotalRevenue(stats) == 0
    ensures stats.summary.totalBookings.None? ==> TotalBooking(stats) == 0
    ensures stats.summary.newBookings.None? ==> NewBookingCounts(stats) == NoNewBookings
    ensures stats.summary.totalCoachEarning.Some? ==> TotalRevenue(stats) == stats.summary.totalCoachEarning.value
    ensures stats.summary.totalBookings.Some? ==> TotalBooking(stats) == stats.summary.totalBookings.value
    ensures stats.summary.newBookings.Some? ==> NewBookingCounts(stats) == stats.summary.newBookings.value
  {
  }

  // ---------------------------------------------------------------------
  // Revenue chart

  datatype ChartPoint = ChartPoint(labelText: string, revenue: int)

  /** `series.map(item => ({ label: labelOf(item), revenue: revenueOf(item) }))`. */
  function Points<T>(series: seq<T>, labelOf: T -> string, revenueOf: T -> int): (r: seq<ChartPoint>)
    ensures |r| == |series|
    ensures forall i :: 0 <= i < |r| ==> r[i] == ChartPoint(labelOf(series[i]), revenueOf(series[i]))
  {
    if series == [] then []
    else [ChartPoint(labelOf(series[0]), revenueOf(series[0]))] + Points(series[1..], labelOf, revenueOf)
  }

  /** `getChartData`: the selected series, one point per item, in the same order. */
  function ChartData(range: ChartRange, stats: Stats): (r: seq<ChartPoint>)
    ensures range == Day ==> (
      && |r| == |stats.coachRevenue.day|
      && forall i :: 0 <= i < |r| ==>
        r[i].labelText == stats.coachRevenue.day[i].date && r[i].revenue == stats.coachRevenue.day[i].revenue)
    ensures range == Week ==> (
      && |r| == |stats.coachRevenue.week|
      && forall i :: 0 <= i < |r| ==>
        r[i].labelText == stats.coachRevenue.week[i].week && r[i].revenue == stats.coachRevenue.week[i].revenue)
    ensures range == Month ==> (
      && |r| == |stats.coachRevenue.month|
      && forall i :: 0 <= i < |r| ==>
        r[i].labelText == stats.coachRevenue.month[i].month && r[i].revenue == stats.coachRevenue.month[i].revenue)
  {
    match range
    case Day => Points(stats.coachRevenue.day, (d: DayRevenue) => d.date, (d: DayRevenue) => d.revenue)
    case Week => Points(stats.coachRevenue.week, (w: WeekRevenue) => w.week, (w: WeekRevenue) => w.revenue)
    case Month => Points(stats.coachRevenue.month, (m: MonthRevenue) => m.month, (m: MonthRevenue) => m.revenue)
  }

  function PointsTotal(ps: seq<ChartPoint>): int
  {
    if ps == [] then 0 else ps[0].revenue + PointsTotal(ps[1..])
  }

  function SeriesTotal<T>(series: seq<T>, revenueOf: T -> int): int
  {
    if series == [] then 0 else revenueOf(series[0]) + SeriesTotal(series[1..], revenueOf)
  }

  /** The chart neither drops nor alters revenue: its total is the series' total. */
  lemma {:induction false} PointsKeepTotal<T>(series: seq<T>, labelOf: T -> string, revenueOf: T -> int)
    ensures PointsTotal(Points(series, labelOf, revenueOf)) == SeriesTotal(series, revenueOf)
  {
    if series != [] {
      var r := Points(series, labelOf, revenueOf);
      assert r[1..] == Points(series[1..], labelOf, revenueOf);
      PointsKeepTotal(series[1..], labelOf, revenueOf);
    }
  }

  /** The chart's range selects exactly the series it names; the other two series do not matter. */
  lemma ChartUsesOnlySelectedSeries(range: ChartRange, a: Stats, b: Stats)
    requires range == Day ==> a.coachRevenue.day == b.coachRevenue.day
    requires range == Week ==> a.coachRevenue.week == b.coachRevenue.week
    requires range == Month ==> a.coachRevenue.month == b.coachRevenue.month
    ensures ChartData(range, a) == ChartData(range, b)
  {
  }

  // ---------------------------------------------------------------------
  // New bookings

  datatype RadialEntry = RadialEntry(name: string, value: int, fill: string)

  /** `newBookingsData`: today, this week and this month, in that order. */
  function NewBookingsData(nb: NewBookings): (r: seq<RadialEntry>)
    ensures |r| == 3
    ensures r[0].name == "Today" && r[0].value == nb.thisDay
    ensures r[1].name == "This Week" && r[1].value == nb.thisWeek
    ensures r[2].name == "This Month" && r[2].value == nb.thisMonth
  {
    [ RadialEntry("Today", nb.thisDay, "#A8C2A3"),
      RadialEntry("This Week", nb.thisWeek, "#C6D2FD"),
      RadialEntry("This Month", nb.thisMonth, "#CBA0E3") ]
  }

  /** The year's count is never shown. */
  lemma NewBookingsIgnoreYear(nb: NewBookings, year: int)
    ensures NewBookingsData(nb.(thisYear := year)) == NewBookingsData(nb)
  {
  }

  /** Without new-booking figures the radial chart shows three zeros. */
  lemma NoFiguresShowZeros(stats: Stats)
    requires stats.summary.newBookings.None?
    ensures forall e :: e in NewBookingsData(NewBookingCounts(stats)) ==> e.value == 0
  {
  }

  // ---------------------------------------------------------------------
  // The component's state

  /** The overview; the range buttons are its only state. */
  class DashboardView {
    var range: ChartRange

    constructor ()
      ensures range == Day
    {
      range := Day;
    }

    /** One of the three range buttons. */
    method SetRange(r: ChartRange)
      modifies this
      ensures range == r
    {
      range := r;
    }
  }
}
