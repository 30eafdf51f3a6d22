/**
 * src/components/organisms/ConversionTrendChart.jsx: conversions grouped by
 * calendar day (a reduce that updates a per-day accumulator), the groups
 * sorted by date with the latest thirty kept, and the two aligned series
 * drawn from them.
 */
module ConversionTrendChart {
  import opened Seqs
  import opened Records

  /**
   * The UTC day of a conversion, as a day number: the date part of
   * `toISOString()`.  Dafny's division rounds down for a positive divisor,
   * as the calendar does before the epoch.
   */
  function Day(c: Conversion): int {
    c.timestamp / DAY_MS
  }

  /** `{ count, revenue }` of one day. */
  datatype DayTotal = DayTotal(count: nat, revenue: real)

  /** One (day, revenue) pair per conversion, in order. */
  function DayPairs(cs: seq<Conversion>): (ps: seq<(int, real)>)
    ensures |ps| == |cs|
    ensures forall i :: 0 <= i < |cs| ==> ps[i] == (Day(cs[i]), cs[i].revenue)
  {
    seq(|cs|, i requires 0 <= i < |cs| => (Day(cs[i]), cs[i].revenue))
  }

  lemma DayPairsSnoc(cs: seq<Conversion>, c: Conversion)
    ensures DayPairs(cs + [c]) == DayPairs(cs) + [(Day(c), c.revenue)]
  {
  }

  /**
   * `daily` has an entry exactly for the days of `cs`, holding how many
   * conversions fell on that day and the sum of their revenue.
   */
  ghost predicate Tallied(daily: map<int, DayTotal>, cs: seq<Conversion>) {
    var ps := DayPairs(cs);
    && (forall d :: d in daily <==> d in Keys(ps))
    && (forall d :: d in daily ==> daily[d].count == Count(Keys(ps), d) && daily[d].revenue == SumFor(ps, d))
  }

  /** The reducer's step for one conversion. */
  function AddConversion(daily: map<int, DayTotal>, c: Conversion): map<int, DayTotal> {
    var d := Day(c);
    var t := if d in daily then daily[d] else DayTotal(0, 0.0);
    daily[d := DayTotal(t.count + 1, t.revenue + c.revenue)]
  }

  lemma TallyStep(daily: map<int, DayTotal>, cs: seq<Conversion>, c: Conversion)
    requires Tallied(daily, cs)
    ensures Tallied(AddConversion(daily, c), cs + [c])
  {
    var ps, p := DayPairs(cs), (Day(c), c.revenue);
    DayPairsSnoc(cs, c);
    KeysSnoc(ps, p);
    if Day(c) !in daily {
      SumForAbsent(ps, Day(c));
    }
    var next := AddConversion(daily, c);
    forall d | d in next
      ensures next[d].count == Count(Keys(ps + [p]), d) && next[d].revenue == SumFor(ps + [p], d)
    {
      SumForSnoc(ps, p, d);
      CountSnoc(Keys(ps), p.0, d);
    }
  }

  /**
   * `dailyConversions`: the per-day totals, and the days in the order the
   * accumulator's keys were first set (the order `Object.entries` lists them).
   */
  method DailyConversions(conversions: seq<Conversion>) returns (daily: map<int, DayTotal>, dates: seq<int>)
    ensures Tallied(daily, conversions)
    ensures dates == Distinct(Keys(DayPairs(conversions)))
  {
    daily, dates := map[], [];
    for i := 0 to |conversions|
      invariant Tallied(daily, conversions[..i])
      invariant dates == Distinct(Keys(DayPairs(conversions[..i])))
    {
      var c := conversions[i];
      assert conversions[..i + 1] == conversions[..i] + [c];
      TallyStep(daily, conversions[..i], c);
      DayPairsSnoc(conversions[..i], c);
      KeysSnoc(DayPairs(conversions[..i]), (Day(c), c.revenue));
      DistinctSnoc(Keys(DayPairs(conversions[..i])), Day(c));
      if Day(c) !in daily {
        dates := dates + [Day(c)];
      }
      daily := AddConversion(daily, c);
    }
    assert conversions[..|conversions|] == conversions;
  }

  /** Sum of the counts of the listed days. */
  function CountSum(dates: seq<int>, daily: map<int, DayTotal>): int {
    if dates == [] then 0
    else
      var d := dates[|dates| - 1];
      CountSum(dates[..|dates| - 1], daily) + if d in daily then daily[d].count else 0
  }

  /** Sum of the revenues of the listed days. */
  function RevenueSum(dates: seq<int>, daily: map<int, DayTotal>): real {
    if dates == [] then 0.0
    else
      var d := dates[|dates| - 1];
      RevenueSum(dates[..|dates| - 1], daily) + if d in daily then daily[d].revenue else 0.0
  }

  lemma {:induction false} GroupSums(dates: seq<int>, daily: map<int, DayTotal>, cs: seq<Conversion>)
    requires Tallied(daily, cs)
    ensures CountSum(dates, daily) == SumCounts(dates, Keys(DayPairs(cs)))
    ensures RevenueSum(dates, daily) == SumGroups(dates, DayPairs(cs))
  {
    if dates != [] {
      var d := dates[|dates| - 1];
      GroupSums(dates[..|dates| - 1], daily, cs);
      if d !in daily {
        SumForAbsent(DayPairs(cs), d);
      }
    }
  }

  lemma {:induction false} PairsTotal(cs: seq<Conversion>)
    ensures Total(DayPairs(cs)) == TotalRevenue(cs)
  {
    if cs != [] {
      var init := cs[..|cs| - 1];
      assert cs == init + [cs[|cs| - 1]];
      PairsTotal(init);
      DayPairsSnoc(init, cs[|cs| - 1]);
      TotalSnoc(DayPairs(init), (Day(cs[|cs| - 1]), cs[|cs| - 1].revenue));
    }
  }

  /**
   * Every conversion lands in the group of its day; the group counts add up
   * to the number of conversions and the group revenues to their total.
   */
  lemma DailyTotals(conversions: seq<Conversion>, daily: map<int, DayTotal>, dates: seq<int>)
    requires Tallied(daily, conversions)
    requires dates == Distinct(Keys(DayPairs(conversions)))
    ensures forall i :: 0 <= i < |conversions| ==> Day(conversions[i]) in daily
    ensures CountSum(dates, daily) == |conversions|
    ensures RevenueSum(dates, daily) == TotalRevenue(conversions)
  {
    var ps := DayPairs(conversions);
    forall i | 0 <= i < |conversions| ensures Day(conversions[i]) in daily {
      assert Keys(ps)[i] == Day(conversions[i]);
    }
    GroupSums(dates, daily, conversions);
    CountsPartition(Keys(ps));
    GroupedTotal(ps);
    PairsTotal(conversions);
  }

  type Entry = (int, DayTotal)

  /** `Object.entries(dailyConversions)`. */
  function Entries(dates: seq<int>, daily: map<int, DayTotal>): (es: seq<Entry>)
    requires forall i :: 0 <= i < |dates| ==> dates[i] in daily
    ensures |es| == |dates|
    ensures forall i :: 0 <= i < |dates| ==> es[i] == (dates[i], daily[dates[i]])
  {
    seq(|dates|, i requires 0 <= i < |dates| => (dates[i], daily[dates[i]]))
  }

  function EntryDate(e: Entry): real {
    e.0 as real
  }

  const WINDOW := 30

  /** `slice(-n)`: the last `n` elements, or all of them when there are fewer. */
  function LastN<T>(s: seq<T>, n: nat): (r: seq<T>)
    ensures |r| == if |s| < n then |s| else n
    ensures r == s[|s| - |r|..]
  {
    if |s| <= n then s else s[|s| - n..]
  }

  /** `chartData`: the entries in date order, the latest thirty. */
  function ChartData(dates: seq<int>, daily: map<int, DayTotal>): seq<Entry>
    requires forall i :: 0 <= i < |dates| ==> dates[i] in daily
  {
    LastN(SortAsc(Entries(dates, daily), EntryDate), WINDOW)
  }

  /** The last `n` of a sorted sequence are sorted. */
  lemma LastNSorted<T>(s: seq<T>, key: T -> real, n: nat)
    requires SortedBy(s, key)
    ensures SortedBy(LastN(s, n), key)
  {
    var r := LastN(s, n);
    var off := |s| - |r|;
    forall i, j | 0 <= i < j < |r| ensures key(r[i]) <= key(r[j]) {
      assert r[i] == s[off + i] && r[j] == s[off + j];
    }
  }

  /** None of the elements `LastN` drops from a sorted sequence is later than one it keeps. */
  lemma LastNLatest<T>(s: seq<T>, key: T -> real, n: nat)
    requires SortedBy(s, key)
    ensures forall i, k :: 0 <= i < |s| - |LastN(s, n)| && 0 <= k < |LastN(s, n)| ==>
      key(s[i]) <= key(LastN(s, n)[k])
  {
    var r := LastN(s, n);
    var off := |s| - |r|;
    forall i, k | 0 <= i < off && 0 <= k < |r| ensures key(s[i]) <= key(r[k]) {
      assert r[k] == s[off + k];
    }
  }

  /**
   * The chart shows at most thirty groups, in ascending date order; they are
   * the last of the sorted groups, so no group left out is later than one shown.
   */
  lemma ChartDataLatest(dates: seq<int>, daily: map<int, DayTotal>)
    requires forall i :: 0 <= i < |dates| ==> dates[i] in daily
    ensures var sorted := SortAsc(Entries(dates, daily), EntryDate);
      var data := ChartData(dates, daily);
      && |data| == (if |dates| < WINDOW then |dates| else WINDOW)
      && SortedBy(data, EntryDate)
      && data == sorted[|sorted| - |data|..]
      && (forall i, k :: 0 <= i < |sorted| - |data| && 0 <= k < |data| ==> EntryDate(sorted[i]) <= EntryDate(data[k]))
  {
    var sorted := SortAsc(Entries(dates, daily), EntryDate);
    LastNSorted(sorted, EntryDate, WINDOW);
    LastNLatest(sorted, EntryDate, WINDOW);
  }

  /** Every group the chart shows is one of the grouped days, with that day's totals. */
  lemma ChartDataEntries(dates: seq<int>, daily: map<int, DayTotal>)
    requires forall i :: 0 <= i < |dates| ==> dates[i] in daily
    ensures forall e :: e in ChartData(dates, daily) ==> e.0 in dates && e.1 == daily[e.0]
  {
    var entries := Entries(dates, daily);
    var sorted := SortAsc(entries, EntryDate);
    SortAscMembers(entries, EntryDate);
    forall e | e in ChartData(dates, daily) ensures e.0 in dates && e.1 == daily[e.0] {
      assert e in sorted;
      var i :| 0 <= i < |entries| && entries[i] == e;
    }
  }

  /** `categories` and `chartSeries`: one date, one count and one revenue per shown group. */
  datatype Series = Series(categories: seq<int>, counts: seq<nat>, revenues: seq<real>)

  function ChartSeries(data: seq<Entry>): (s: Series)
    ensures |s.categories| == |data| && |s.counts| == |data| && |s.revenues| == |data|
    ensures forall i :: 0 <= i < |data| ==>
      s.categories[i] == data[i].0 && s.counts[i] == data[i].1.count && s.revenues[i] == data[i].1.revenue
  {
    Series(MapSeq(data, (e: Entry) => e.0), MapSeq(data, (e: Entry) => e.1.count),
           MapSeq(data, (e: Entry) => e.1.revenue))
  }
}
