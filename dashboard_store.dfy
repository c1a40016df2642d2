/**
 * The dashboard store of src/store/dashboardStore.ts: the aggregates shown
 * on the dashboard, the date range they were asked for, and the loading
 * flag and error of the last action. Each service reply is a parameter of
 * the action, and each action returns the arguments it passed to the
 * service. The current month's range comes from the clock and is a
 * parameter wherever the store reads it.
 */
module DashboardStore {
  import opened Wrappers
  import opened Domain

  const DefaultTrendMonths := 6
  const DefaultRecentLimit := 10

  /** An optional argument: the given value, or the default when it is left out. */
  function OrDefault(given: Option<int>, default: int): (n: int)
    ensures given.Some? ==> n == given.value
    ensures given.None? ==> n == default
  {
    if given.Some? then given.value else default
  }

  class DashboardStore {
    var summary: Option<FinancialSummary>
    var breakdown: Option<CategoryBreakdown>
    var trends: Option<MonthlyTrends>
    var recentTransactions: seq<Transaction>
    var isLoading: bool
    var error: Option<ApiError>
    var dateFilter: DateRange

    /** No data, nothing loading, no error, and the given range as the filter. */
    predicate Cleared(range: DateRange)
      reads this
    {
      && summary.None? && breakdown.None? && trends.None? && recentTransactions == []
      && !isLoading && error.None? && dateFilter == range
    }

    constructor (currentMonth: DateRange)
      ensures Cleared(currentMonth)
    {
      summary := None;
      breakdown := None;
      trends := None;
      recentTransactions := [];
      isLoading := false;
      error := None;
      dateFilter := currentMonth;
    }

    /**
     * `loadDashboard(filters)`: the given range, or else the stored one, is
     * stored before the fetch and passed to it; success replaces all four
     * aggregates, failure keeps them.
     */
    method LoadDashboard(filters: Option<DateRange>, reply: Result<DashboardData, ApiError>)
      returns (requested: DateRange, thrown: Option<ApiError>)
      modifies this
      ensures requested == (if filters.Some? then filters.value else old(dateFilter))
      ensures dateFilter == requested && !isLoading
      ensures reply.Ok? ==>
        && thrown.None? && error.None?
        && summary == Some(reply.value.summary) && breakdown == Some(reply.value.breakdown)
        && trends == Some(reply.value.trends) && recentTransactions == reply.value.recentTransactions
      ensures reply.Err? ==>
        && thrown == Some(reply.error) && error == thrown
        && summary == old(summary) && breakdown == old(breakdown)
        && trends == old(trends) && recentTransactions == old(recentTransactions)
    {
      requested := if filters.Some? then filters.value else dateFilter;
      isLoading := true;
      error := None;
      dateFilter := requested;
      if reply.Err? {
        isLoading := false;
        error := Some(reply.error);
        return requested, Some(reply.error);
      }
      summary := Some(reply.value.summary);
      breakdown := Some(reply.value.breakdown);
      trends := Some(reply.value.trends);
      recentTransactions := reply.value.recentTransactions;
      isLoading := false;
      error := None;
      thrown := None;
    }

    /** `loadSummary(filters)`: reads the stored range when none is given, but never stores one. */
    method LoadSummary(filters: Option<DateRange>, reply: Result<FinancialSummary, ApiError>)
      returns (requested: DateRange, thrown: Option<ApiError>)
      modifies this
      ensures requested == (if filters.Some? then filters.value else old(dateFilter))
      ensures dateFilter == old(dateFilter) && !isLoading
      ensures reply.Ok? ==> thrown.None? && error.None? && summary == Some(reply.value)
      ensures reply.Err? ==> thrown == Some(reply.error) && error == thrown && summary == old(summary)
      ensures breakdown == old(breakdown) && trends == old(trends) && recentTransactions == old(recentTransactions)
    {
      requested := if filters.Some? then filters.value else dateFilter;
      isLoading := true;
      error := None;
      if reply.Err? {
        isLoading := false;
        error := Some(reply.error);
        return requested, Some(reply.error);
      }
      summary := Some(reply.value);
      isLoading := false;
      error := None;
      thrown := None;
    }

    /** `loadBreakdown(filters)`: reads the stored range when none is given, but never stores one. */
    method LoadBreakdown(filters: Option<DateRange>, reply: Result<CategoryBreakdown, ApiError>)
      returns (requested: DateRange, thrown: Option<ApiError>)
      modifies this
      ensures requested == (if filters.Some? then filters.value else old(dateFilter))
      ensures dateFilter == old(dateFilter) && !isLoading
      ensures reply.Ok? ==> thrown.None? && error.None? && breakdown == Some(reply.value)
      ensures reply.Err? ==> thrown == Some(reply.error) && error == thrown && breakdown == old(breakdown)
      ensures summary == old(summary) && trends == old(trends) && recentTransactions == old(recentTransactions)
    {
      requested := if filters.Some? then filters.value else dateFilter;
      isLoading := true;
      error := None;
      if reply.Err? {
        isLoading := false;
        error := Some(reply.error);
        return requested, Some(reply.error);
      }
      breakdown := Some(reply.value);
      isLoading := false;
      error := None;
      thrown := None;
    }

    /** `loadTrends(months = 6)`. */
    method LoadTrends(months: Option<int>, reply: Result<MonthlyTrends, ApiError>)
      returns (requestedMonths: int, thrown: Option<ApiError>)
      modifies this
      ensures requestedMonths == OrDefault(months, DefaultTrendMonths)
      ensures dateFilter == old(dateFilter) && !isLoading
      ensures reply.Ok? ==> thrown.None? && error.None? && trends == Some(reply.value)
      ensures reply.Err? ==> thrown == Some(reply.error) && error == thrown && trends == old(trends)
      ensures summary == old(summary) && breakdown == old(breakdown) && recentTransactions == old(recentTransactions)
    {
      requestedMonths := OrDefault(months, DefaultTrendMonths);
      isLoading := true;
      error := None;
      if reply.Err? {
        isLoading := false;
        error := Some(reply.error);
        return requestedMonths, Some(reply.error);
      }
      trends := Some(reply.value);
      isLoading := false;
      error := None;
      thrown := None;
    }

    /** `loadRecentTransactions(limit = 10)`. */
    method LoadRecentTransactions(limit: Option<int>, reply: Result<seq<Transaction>, ApiError>)
      returns (requestedLimit: int, thrown: Option<ApiError>)
      modifies this
      ensures requestedLimit == OrDefault(limit, DefaultRecentLimit)
      ensures dateFilter == old(dateFilter) && !isLoading
      ensures reply.Ok? ==> thrown.None? && error.None? && recentTransactions == reply.value
      ensures reply.Err? ==> thrown == Some(reply.error) && error == thrown && recentTransactions == old(recentTransactions)
      ensures summary == old(summary) && breakdown == old(breakdown) && trends == old(trends)
    {
      requestedLimit := OrDefault(limit, DefaultRecentLimit);
      isLoading := true;
      error := None;
      if reply.Err? {
        isLoading := false;
        error := Some(reply.error);
        return requestedLimit, Some(reply.error);
      }
      recentTransactions := reply.value;
      isLoading := false;
      error := None;
      thrown := None;
    }

    /** `setDateFilter(filter)`. */
    method SetDateFilter(filter: DateRange)
      modifies this
      ensures dateFilter == filter
      ensures summary == old(summary) && breakdown == old(breakdown) && trends == old(trends)
      ensures recentTransactions == old(recentTransactions) && isLoading == old(isLoading) && error == old(error)
    {
      dateFilter := filter;
    }

    /** `resetToCurrentMonth()`: only the filter changes. */
    method ResetToCurrentMonth(currentMonth: DateRange)
      modifies this
      ensures dateFilter == currentMonth
      ensures summary == old(summary) && breakdown == old(breakdown) && trends == old(trends)
      ensures recentTransactions == old(recentTransactions) && isLoading == old(isLoading) && error == old(error)
    {
      SetDateFilter(currentMonth);
    }

    /** `clearError()`. */
    method ClearError()
      modifies this
      ensures error.None?
      ensures summary == old(summary) && breakdown == old(breakdown) && trends == old(trends)
      ensures recentTransactions == old(recentTransactions) && isLoading == old(isLoading) && dateFilter == old(dateFilter)
    {
      error := None;
    }

    /** `reset()`: everything back to how a store created in the current month starts. */
    method Reset(currentMonth: DateRange)
      modifies this
      ensures Cleared(currentMonth)
    {
      summary := None;
      breakdown := None;
      trends := None;
      recentTransactions := [];
      isLoading := false;
      error := None;
      dateFilter := currentMonth;
    }
  }

  /**
   * A range chosen once with `loadDashboard` is what the later partial loads
   * ask for when they are given none, and the defaults apply to trends and
   * recent transactions.
   */
  method StoredRangeIsReused(currentMonth: DateRange, chosen: DateRange, data: DashboardData, summary: FinancialSummary)
    returns (summaryRange: DateRange, breakdownRange: DateRange, months: int, limit: int)
    ensures summaryRange == chosen && breakdownRange == chosen
    ensures months == 6 && limit == 10
  {
    var s := new DashboardStore(currentMonth);
    var used, t0 := s.LoadDashboard(Some(chosen), Ok(data));
    var t1;
    summaryRange, t1 := s.LoadSummary(None, Ok(summary));
    var t2;
    breakdownRange, t2 := s.LoadBreakdown(None, Err(ApiError("x", None, 500)));
    var t3;
    months, t3 := s.LoadTrends(None, Err(ApiError("x", None, 500)));
    var t4;
    limit, t4 := s.LoadRecentTransactions(None, Ok([]));
  }

  /** A failed reload keeps what the last successful one showed, and stores the range it asked for anyway. */
  method FailedReloadKeepsData(currentMonth: DateRange, data: DashboardData, next: DateRange, e: ApiError)
    returns (shown: Option<FinancialSummary>, shownRecent: seq<Transaction>, range: DateRange, recorded: Option<ApiError>)
    ensures shown == Some(data.summary) && shownRecent == data.recentTransactions
    ensures range == next && recorded == Some(e)
  {
    var s := new DashboardStore(currentMonth);
    var r1, t1 := s.LoadDashboard(None, Ok(data));
    var r2, t2 := s.LoadDashboard(Some(next), Err(e));
    shown := s.summary;
    shownRecent := s.recentTransactions;
    range := s.dateFilter;
    recorded := s.error;
  }
}
