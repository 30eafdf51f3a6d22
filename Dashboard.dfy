/**
 * src/components/pages/Dashboard.jsx: the four headline metrics computed from
 * the loaded conversions and campaigns.
 */
module Dashboard {
  import opened Records
  import ConversionTrendChart

  datatype Metrics = Metrics(totalRevenue: real, totalConversions: nat, avgRoas: real, totalSpend: real)

  /** `campaigns.reduce((sum, c) => sum + c.budget, 0)`. */
  function TotalBudget(campaigns: seq<Campaign>): real {
    if campaigns == [] then 0.0
    else TotalBudget(campaigns[..|campaigns| - 1]) + campaigns[|campaigns| - 1].budget
  }

  /** The metrics of `loadDashboardData`; the average ROAS is 0 without a positive spend. */
  function DashboardMetrics(conversions: seq<Conversion>, campaigns: seq<Campaign>): (m: Metrics)
    ensures m.totalConversions == |conversions|
    ensures m.totalRevenue == TotalRevenue(conversions)
    ensures m.totalSpend == TotalBudget(campaigns)
    ensures m.totalSpend > 0.0 ==> m.avgRoas * m.totalSpend == m.totalRevenue
    ensures m.totalSpend <= 0.0 ==> m.avgRoas == 0.0
  {
    var totalRevenue := TotalRevenue(conversions);
    var totalSpend := TotalBudget(campaigns);
    Metrics(totalRevenue, |conversions|, if totalSpend > 0.0 then totalRevenue / totalSpend else 0.0, totalSpend)
  }

  /** Non-negative budgets give a non-negative spend. */
  lemma {:induction false} TotalBudgetNonNegative(campaigns: seq<Campaign>)
    requires forall i :: 0 <= i < |campaigns| ==> campaigns[i].budget >= 0.0
    ensures TotalBudget(campaigns) >= 0.0
  {
    if campaigns != [] {
      TotalBudgetNonNegative(campaigns[..|campaigns| - 1]);
    }
  }

  /**
   * The headline totals agree with the trend chart: its daily groups count
   * every conversion and sum every revenue the dashboard reports.
   */
  lemma MetricsMatchTrend(conversions: seq<Conversion>, campaigns: seq<Campaign>,
                          daily: map<int, ConversionTrendChart.DayTotal>, dates: seq<int>)
    requires ConversionTrendChart.Tallied(daily, conversions)
    requires dates == Seqs.Distinct(Seqs.Keys(ConversionTrendChart.DayPairs(conversions)))
    ensures ConversionTrendChart.CountSum(dates, daily) == DashboardMetrics(conversions, campaigns).totalConversions
    ensures ConversionTrendChart.RevenueSum(dates, daily) == DashboardMetrics(conversions, campaigns).totalRevenue
  {
    ConversionTrendChart.DailyTotals(conversions, daily, dates);
  }
}
