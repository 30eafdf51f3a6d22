/**
 * `calculateAttribution` of src/components/organisms/AttributionFlowChart.jsx:
 * every touchpoint of every conversion hands credit, and revenue times that
 * credit, to its channel's name; the per-name totals are rounded and listed
 * by revenue, highest first.
 */
module AttributionFlowChart {
  import opened Seqs
  import opened Records
  import Calculations

  /**
   * The chart's own `switch`: the same four models as `attributeConversion`,
   * but with no `default`, so any other model leaves the credit at 0.
   */
  function ChartCredit(model: string, index: nat, n: nat): real
    requires index < n
  {
    match Calculations.ModelOf(model)
    case FirstTouch => if index == 0 then 1.0 else 0.0
    case LastTouch => if index == n - 1 then 1.0 else 0.0
    case Linear => 1.0 / n as real
    case TimeDecay => Calculations.TimeWeight(index, n) / Calculations.TotalWeight(n, n)
    case Other => 0.0
  }

  /** The two switches agree on the four named models and differ on every other one. */
  lemma SwitchesAgree(model: string, index: nat, n: nat)
    requires index < n
    ensures Calculations.IsNamedModel(model) ==> ChartCredit(model, index, n) == Calculations.Credit(model, index, n)
    ensures !Calculations.IsNamedModel(model) ==>
      ChartCredit(model, index, n) == 0.0 && Calculations.Credit(model, index, n) == 1.0 / n as real
  {
  }

  /** The `{ revenue, conversions }` object kept per channel name. */
  datatype Totals = Totals(revenue: real, conversions: real)

  /** One row of the result, after rounding. */
  datatype Row = Row(channel: string, revenue: int, conversions: real)

  /** (channel name, credit) of the first `k` touchpoints of one conversion, in loop order. */
  function ConversionCredits(conversion: Conversion, channels: seq<Channel>, model: string, k: nat): (ps: seq<(string, real)>)
    requires k <= |conversion.touchpoints|
    ensures |ps| == k
  {
    if k == 0 then []
    else
      var tps := conversion.touchpoints;
      ConversionCredits(conversion, channels, model, k - 1)
        + [(ChannelName(channels, tps[k - 1].channelId), ChartCredit(model, k - 1, |tps|))]
  }

  /**
   * (channel name, revenue times credit) of the first `k` touchpoints of one
   * conversion: its credits, each multiplied by the conversion's revenue.
   */
  function ConversionRevenues(conversion: Conversion, channels: seq<Channel>, model: string, k: nat): (ps: seq<(string, real)>)
    requires k <= |conversion.touchpoints|
    ensures |ps| == k
  {
    Scale(conversion.revenue, ConversionCredits(conversion, channels, model, k))
  }

  /** Every (channel name, credit) pair of a list of conversions, in the order of the nested loops. */
  function CreditFlow(conversions: seq<Conversion>, channels: seq<Channel>, model: string): seq<(string, real)> {
    if conversions == [] then []
    else
      var last := conversions[|conversions| - 1];
      CreditFlow(conversions[..|conversions| - 1], channels, model)
        + ConversionCredits(last, channels, model, |last.touchpoints|)
  }

  /** Every (channel name, revenue times credit) pair, in the same order. */
  function RevenueFlow(conversions: seq<Conversion>, channels: seq<Channel>, model: string): seq<(string, real)> {
    if conversions == [] then []
    else
      var last := conversions[|conversions| - 1];
      RevenueFlow(conversions[..|conversions| - 1], channels, model)
        + ConversionRevenues(last, channels, model, |last.touchpoints|)
  }

  /** `Math.round`: the nearest integer, halves rounded up. */
  function Round(x: real): (r: int)
    ensures x - 0.5 < r as real <= x + 0.5
  {
    (x + 0.5).Floor
  }

  /** `Math.round(x * 10) / 10`: the nearest tenth. */
  function RoundTenth(x: real): (r: real)
    ensures x - 0.05 < r <= x + 0.05
    ensures (r * 10.0).Floor as real == r * 10.0
  {
    Round(x * 10.0) as real / 10.0
  }

  /** One rounded row per distinct channel name, in first-seen order (`Object.entries`). */
  function Rows(revenues: seq<(string, real)>, credits: seq<(string, real)>): (rows: seq<Row>)
    ensures |rows| == |Distinct(Keys(credits))|
  {
    var names := Distinct(Keys(credits));
    seq(|names|, i requires 0 <= i < |names| =>
      Row(names[i], Round(SumFor(revenues, names[i])), RoundTenth(SumFor(credits, names[i]))))
  }

  /** The comparator `b.revenue - a.revenue`: ascending in minus the revenue. */
  function RevenueDescending(row: Row): real {
    -(row.revenue as real)
  }

  /**
   * What `calculateAttribution` returns: the rows of every channel name,
   * highest revenue first; sorting neither adds nor drops a row.
   */
  function Report(conversions: seq<Conversion>, channels: seq<Channel>, model: string): (rows: seq<Row>)
    ensures multiset(rows) == multiset(Rows(RevenueFlow(conversions, channels, model), CreditFlow(conversions, channels, model)))
    ensures forall i, j :: 0 <= i < j < |rows| ==> rows[i].revenue >= rows[j].revenue
  {
    SortAsc(Rows(RevenueFlow(conversions, channels, model), CreditFlow(conversions, channels, model)), RevenueDescending)
  }

  /**
   * `totals` and its key order `order` hold, per channel name, the sums of
   * the pairs `revenues` and `credits` added so far (both list the same names).
   */
  ghost predicate Accumulated(totals: map<string, Totals>, order: seq<string>,
                              revenues: seq<(string, real)>, credits: seq<(string, real)>) {
    && Keys(revenues) == Keys(credits)
    && order == Distinct(Keys(credits))
    && (forall name :: name in totals <==> name in order)
    && (forall name :: name in totals ==> totals[name] == Totals(SumFor(revenues, name), SumFor(credits, name)))
  }

  /** The entry of `key` after one callback step, when `key` is the credited `name`. */
  lemma EntryAfterStep(totals: map<string, Totals>, order: seq<string>,
                       revenues: seq<(string, real)>, credits: seq<(string, real)>,
                       name: string, revenue: real, credit: real, key: string)
    requires Accumulated(totals, order, revenues, credits)
    requires key in totals || key == name
    ensures var before := if name in totals then totals[name] else Totals(0.0, 0.0);
      (if key == name then Totals(before.revenue + revenue, before.conversions + credit) else totals[key])
      == Totals(SumFor(revenues + [(name, revenue)], key), SumFor(credits + [(name, credit)], key))
  {
    SumForSnoc(revenues, (name, revenue), key);
    SumForSnoc(credits, (name, credit), key);
    if key == name && name !in totals {
      SumForAbsent(revenues, name);
      SumForAbsent(credits, name);
    }
  }

  /**
   * The dictionary after one callback step: create the entry when missing,
   * then add the conversion's revenue times the credit, and the credit.
   */
  function Step(totals: map<string, Totals>, name: string, revenue: real, credit: real): map<string, Totals> {
    var created := if name !in totals then totals[name := Totals(0.0, 0.0)] else totals;
    created[name := Totals(created[name].revenue + Times(revenue, credit), created[name].conversions + credit)]
  }

  /** The key order after one callback step: a new name goes last. */
  function StepOrder(order: seq<string>, totals: map<string, Totals>, name: string): seq<string> {
    if name !in totals then order + [name] else order
  }

  /** One callback step keeps the dictionary the per-name sums of the pairs added so far. */
  lemma CreditStep(totals: map<string, Totals>, order: seq<string>,
                   revenues: seq<(string, real)>, credits: seq<(string, real)>,
                   name: string, revenue: real, credit: real)
    requires Accumulated(totals, order, revenues, credits)
    ensures Accumulated(Step(totals, name, revenue, credit), StepOrder(order, totals, name),
                        revenues + [(name, Times(revenue, credit))], credits + [(name, credit)])
  {
    var updated := Step(totals, name, revenue, credit);
    KeysSnoc(revenues, (name, Times(revenue, credit)));
    KeysSnoc(credits, (name, credit));
    DistinctSnoc(Keys(credits), name);
    forall key | key in updated
      ensures updated[key] == Totals(SumFor(revenues + [(name, Times(revenue, credit))], key), SumFor(credits + [(name, credit)], key))
    {
      EntryAfterStep(totals, order, revenues, credits, name, Times(revenue, credit), credit, key);
    }
  }

  /**
   * The body of the inner `forEach` callback: creates the entry of the
   * touchpoint's channel name when missing, then adds revenue times credit
   * and the credit to it.
   */
  method CreditTouchpoint(totals: map<string, Totals>, order: seq<string>, channels: seq<Channel>, selectedModel: string,
                          touchpoints: seq<Touchpoint>, revenue: real, index: nat)
    returns (totals': map<string, Totals>, order': seq<string>)
    requires index < |touchpoints|
    ensures totals' == Step(totals, ChannelName(channels, touchpoints[index].channelId), revenue,
                            ChartCredit(selectedModel, index, |touchpoints|))
    ensures order' == StepOrder(order, totals, ChannelName(channels, touchpoints[index].channelId))
  {
    var channelName := ChannelName(channels, touchpoints[index].channelId);
    totals', order' := totals, order;
    if channelName !in totals' {
      totals' := totals'[channelName := Totals(0.0, 0.0)];
      order' := order' + [channelName];
    }
    var credit := ChartCredit(selectedModel, index, |touchpoints|);
    assert totals' == if channelName !in totals then totals[channelName := Totals(0.0, 0.0)] else totals;
    totals' := totals'[channelName := Totals(totals'[channelName].revenue + revenue * credit,
                                             totals'[channelName].conversions + credit)];
    ghost var st := Step(totals, channelName, revenue, credit);
    assert st.Keys == totals'.Keys;
    assert forall k :: k in st ==> st[k] == totals'[k];
  }

  /** The pairs of one more touchpoint extend those of the touchpoints before it. */
  lemma PairsSnoc(revenues: seq<(string, real)>, credits: seq<(string, real)>,
                  conversion: Conversion, channels: seq<Channel>, model: string, index: nat)
    requires index < |conversion.touchpoints|
    ensures var name := ChannelName(channels, conversion.touchpoints[index].channelId);
      var credit := ChartCredit(model, index, |conversion.touchpoints|);
      && revenues + ConversionRevenues(conversion, channels, model, index + 1)
         == revenues + ConversionRevenues(conversion, channels, model, index) + [(name, Times(conversion.revenue, credit))]
      && credits + ConversionCredits(conversion, channels, model, index + 1)
         == credits + ConversionCredits(conversion, channels, model, index) + [(name, credit)]
  {
    var name := ChannelName(channels, conversion.touchpoints[index].channelId);
    var credit := ChartCredit(model, index, |conversion.touchpoints|);
    var creds := ConversionCredits(conversion, channels, model, index);
    assert ConversionCredits(conversion, channels, model, index + 1) == creds + [(name, credit)];
    ScaleSnoc(conversion.revenue, creds, (name, credit));
    var revs := ConversionRevenues(conversion, channels, model, index);
    assert revenues + (revs + [(name, Times(conversion.revenue, credit))]) == revenues + revs + [(name, Times(conversion.revenue, credit))];
    assert credits + (creds + [(name, credit)]) == credits + creds + [(name, credit)];
  }

  /** Before the first touchpoint, a conversion has added no pairs. */
  lemma NoTouchpointsYet(totals: map<string, Totals>, order: seq<string>,
                         revenues: seq<(string, real)>, credits: seq<(string, real)>,
                         conversion: Conversion, channels: seq<Channel>, model: string)
    requires Accumulated(totals, order, revenues, credits)
    ensures Accumulated(totals, order, revenues + ConversionRevenues(conversion, channels, model, 0),
                        credits + ConversionCredits(conversion, channels, model, 0))
  {
    assert revenues + [] == revenues && credits + [] == credits;
  }

  /** Crediting touchpoint `index` of a conversion extends the sums by that touchpoint's pairs. */
  lemma TouchpointStep(totals: map<string, Totals>, order: seq<string>,
                       revenues: seq<(string, real)>, credits: seq<(string, real)>,
                       conversion: Conversion, channels: seq<Channel>, model: string, index: nat)
    requires index < |conversion.touchpoints|
    requires Accumulated(totals, order, revenues + ConversionRevenues(conversion, channels, model, index),
                         credits + ConversionCredits(conversion, channels, model, index))
    ensures var name := ChannelName(channels, conversion.touchpoints[index].channelId);
      var credit := ChartCredit(model, index, |conversion.touchpoints|);
      Accumulated(Step(totals, name, conversion.revenue, credit), StepOrder(order, totals, name),
                  revenues + ConversionRevenues(conversion, channels, model, index + 1),
                  credits + ConversionCredits(conversion, channels, model, index + 1))
  {
    CreditStep(totals, order, revenues + ConversionRevenues(conversion, channels, model, index),
               credits + ConversionCredits(conversion, channels, model, index),
               ChannelName(channels, conversion.touchpoints[index].channelId), conversion.revenue,
               ChartCredit(model, index, |conversion.touchpoints|));
    PairsSnoc(revenues, credits, conversion, channels, model, index);
  }

  /**
   * The dictionary and its key order after crediting the first `k`
   * touchpoints of `conversion`, starting from `totals` and `order`.
   */
  function Credited(totals: map<string, Totals>, order: seq<string>, conversion: Conversion, channels: seq<Channel>,
                    model: string, k: nat): (map<string, Totals>, seq<string>)
    requires k <= |conversion.touchpoints|
  {
    if k == 0 then (totals, order)
    else
      var before := Credited(totals, order, conversion, channels, model, k - 1);
      var tps := conversion.touchpoints;
      var name := ChannelName(channels, tps[k - 1].channelId);
      (Step(before.0, name, conversion.revenue, ChartCredit(model, k - 1, |tps|)), StepOrder(before.1, before.0, name))
  }

  /** Crediting one more touchpoint is one more callback step. */
  lemma CreditedStep(totals: map<string, Totals>, order: seq<string>, conversion: Conversion, channels: seq<Channel>,
                     model: string, k: nat)
    requires k < |conversion.touchpoints|
    ensures var before := Credited(totals, order, conversion, channels, model, k);
      var name := ChannelName(channels, conversion.touchpoints[k].channelId);
      Credited(totals, order, conversion, channels, model, k + 1)
      == (Step(before.0, name, conversion.revenue, ChartCredit(model, k, |conversion.touchpoints|)), StepOrder(before.1, before.0, name))
  {
  }

  /** Crediting the touchpoints of a conversion adds their pairs to the sums. */
  lemma {:induction false} CreditedAccumulated(totals: map<string, Totals>, order: seq<string>,
                                               revenues: seq<(string, real)>, credits: seq<(string, real)>,
                                               conversion: Conversion, channels: seq<Channel>, model: string, k: nat)
    requires k <= |conversion.touchpoints|
    requires Accumulated(totals, order, revenues, credits)
    ensures var after := Credited(totals, order, conversion, channels, model, k);
      Accumulated(after.0, after.1, revenues + ConversionRevenues(conversion, channels, model, k),
                  credits + ConversionCredits(conversion, channels, model, k))
  {
    if k == 0 {
      NoTouchpointsYet(totals, order, revenues, credits, conversion, channels, model);
    } else {
      CreditedAccumulated(totals, order, revenues, credits, conversion, channels, model, k - 1);
      var before := Credited(totals, order, conversion, channels, model, k - 1);
      TouchpointStep(before.0, before.1, revenues, credits, conversion, channels, model, k - 1);
    }
  }

  /**
   * The body of the outer `forEach` callback: skips a conversion without
   * touchpoints, otherwise credits each of its touchpoints in turn.
   */
  method CreditConversion(totals: map<string, Totals>, order: seq<string>, channels: seq<Channel>, selectedModel: string,
                          conversion: Conversion)
    returns (totals': map<string, Totals>, order': seq<string>)
    ensures (totals', order') == Credited(totals, order, conversion, channels, selectedModel, |conversion.touchpoints|)
  {
    totals', order' := totals, order;
    if |conversion.touchpoints| == 0 {
      return;
    }
    var touchpoints := conversion.touchpoints;
    var revenue := conversion.revenue;
    var index := 0;
    while index < |touchpoints|
      invariant 0 <= index <= |touchpoints|
      invariant (totals', order') == Credited(totals, order, conversion, channels, selectedModel, index)
    {
      CreditedStep(totals, order, conversion, channels, selectedModel, index);
      totals', order' := CreditTouchpoint(totals', order', channels, selectedModel, touchpoints, revenue, index);
      index := index + 1;
    }
  }

  /** The dictionary and its key order after the outer loop has visited every conversion. */
  function Attributed(conversions: seq<Conversion>, channels: seq<Channel>, model: string): (map<string, Totals>, seq<string>) {
    if conversions == [] then (map[], [])
    else
      var before := Attributed(conversions[..|conversions| - 1], channels, model);
      var last := conversions[|conversions| - 1];
      Credited(before.0, before.1, last, channels, model, |last.touchpoints|)
  }

  /** After the outer loop, each name holds the sums of its revenue and credit pairs. */
  lemma {:induction false} AttributedAccumulated(conversions: seq<Conversion>, channels: seq<Channel>, model: string)
    ensures var after := Attributed(conversions, channels, model);
      Accumulated(after.0, after.1, RevenueFlow(conversions, channels, model), CreditFlow(conversions, channels, model))
  {
    if conversions != [] {
      var prefix := conversions[..|conversions| - 1];
      var last := conversions[|conversions| - 1];
      AttributedAccumulated(prefix, channels, model);
      var before := Attributed(prefix, channels, model);
      CreditedAccumulated(before.0, before.1, RevenueFlow(prefix, channels, model), CreditFlow(prefix, channels, model),
                          last, channels, model, |last.touchpoints|);
    }
  }

  /** The rounded row of every entry, in key order. */
  function Entries(order: seq<string>, totals: map<string, Totals>): (rows: seq<Row>)
    requires forall name :: name in order ==> name in totals
  {
    seq(|order|, j requires 0 <= j < |order| =>
      Row(order[j], Round(totals[order[j]].revenue), RoundTenth(totals[order[j]].conversions)))
  }

  lemma AccumulatedEntries(totals: map<string, Totals>, order: seq<string>,
                           revenues: seq<(string, real)>, credits: seq<(string, real)>)
    requires Accumulated(totals, order, revenues, credits)
    ensures Entries(order, totals) == Rows(revenues, credits)
  {
  }

  /**
   * `calculateAttribution()`: the nested `forEach` loops fill the dictionary,
   * then its entries are rounded and sorted by revenue, highest first.
   */
  method CalculateAttribution(conversions: seq<Conversion>, channels: seq<Channel>, selectedModel: string)
    returns (rows: seq<Row>)
    ensures rows == Report(conversions, channels, selectedModel)
  {
    var totals: map<string, Totals> := map[];
    var order: seq<string> := [];
    var i := 0;
    while i < |conversions|
      invariant 0 <= i <= |conversions|
      invariant (totals, order) == Attributed(conversions[..i], channels, selectedModel)
    {
      totals, order := CreditConversion(totals, order, channels, selectedModel, conversions[i]);
      assert conversions[..i + 1][..i] == conversions[..i];
      i := i + 1;
    }
    assert conversions[..|conversions|] == conversions;
    AttributedAccumulated(conversions, channels, selectedModel);
    AccumulatedEntries(totals, order, RevenueFlow(conversions, channels, selectedModel),
                       CreditFlow(conversions, channels, selectedModel));
    rows := SortAsc(Entries(order, totals), RevenueDescending);
  }

  /** A conversion that the outer callback does not skip. */
  predicate HasTouchpoints(conversion: Conversion) {
    |conversion.touchpoints| > 0
  }

  /**
   * A conversion's credits add up to what the model hands out over its first
   * `k` touchpoints; an unrecognised model hands out nothing.
   */
  lemma {:induction false} ConversionCreditsTotal(conversion: Conversion, channels: seq<Channel>, model: string, k: nat)
    requires k <= |conversion.touchpoints|
    ensures Total(ConversionCredits(conversion, channels, model, k))
      == if Calculations.IsNamedModel(model) then Calculations.TotalCredit(model, |conversion.touchpoints|, k) else 0.0
  {
    if k > 0 {
      var tps := conversion.touchpoints;
      ConversionCreditsTotal(conversion, channels, model, k - 1);
      TotalSnoc(ConversionCredits(conversion, channels, model, k - 1),
                (ChannelName(channels, tps[k - 1].channelId), ChartCredit(model, k - 1, |tps|)));
      SwitchesAgree(model, k - 1, |tps|);
    }
  }

  /** Under a recognised model, every conversion with touchpoints hands out exactly one conversion of credit. */
  lemma ConversionCreditsOne(conversion: Conversion, channels: seq<Channel>, model: string)
    requires Calculations.IsNamedModel(model)
    ensures Total(ConversionCredits(conversion, channels, model, |conversion.touchpoints|))
      == if HasTouchpoints(conversion) then 1.0 else 0.0
  {
    ConversionCreditsTotal(conversion, channels, model, |conversion.touchpoints|);
    if HasTouchpoints(conversion) {
      Calculations.CreditsSumToOne(model, |conversion.touchpoints|);
    }
  }

  /** Under a recognised model, all credit handed out counts the conversions that have touchpoints. */
  lemma {:induction false} CreditFlowTotal(conversions: seq<Conversion>, channels: seq<Channel>, model: string)
    requires Calculations.IsNamedModel(model)
    ensures Total(CreditFlow(conversions, channels, model)) == |Filter(conversions, HasTouchpoints)| as real
  {
    if conversions != [] {
      var init, last := conversions[..|conversions| - 1], conversions[|conversions| - 1];
      CreditFlowTotal(init, channels, model);
      TotalAppend(CreditFlow(init, channels, model), ConversionCredits(last, channels, model, |last.touchpoints|));
      ConversionCreditsOne(last, channels, model);
    }
  }

  /** Under a recognised model, all revenue handed out is the revenue of the conversions that have touchpoints. */
  lemma {:induction false} RevenueFlowTotal(conversions: seq<Conversion>, channels: seq<Channel>, model: string)
    requires Calculations.IsNamedModel(model)
    ensures Total(RevenueFlow(conversions, channels, model)) == TotalRevenue(Filter(conversions, HasTouchpoints))
  {
    if conversions != [] {
      var init, last := conversions[..|conversions| - 1], conversions[|conversions| - 1];
      RevenueFlowTotal(init, channels, model);
      TotalAppend(RevenueFlow(init, channels, model), ConversionRevenues(last, channels, model, |last.touchpoints|));
      ScaleTotal(last.revenue, ConversionCredits(last, channels, model, |last.touchpoints|));
      ConversionCreditsOne(last, channels, model);
      var kept := Filter(init, HasTouchpoints);
      if HasTouchpoints(last) {
        assert (kept + [last])[..|kept|] == kept;
      } else {
        assert kept + [] == kept;
      }
    }
  }

  /** Sum of the unrounded conversions of the entries `order` lists. */
  function ConversionsSum(order: seq<string>, totals: map<string, Totals>): real {
    if order == [] then 0.0
    else
      var name := order[|order| - 1];
      ConversionsSum(order[..|order| - 1], totals) + (if name in totals then totals[name].conversions else 0.0)
  }

  /** Sum of the unrounded revenue of the entries `order` lists. */
  function RevenueSum(order: seq<string>, totals: map<string, Totals>): real {
    if order == [] then 0.0
    else
      var name := order[|order| - 1];
      RevenueSum(order[..|order| - 1], totals) + (if name in totals then totals[name].revenue else 0.0)
  }

  lemma {:induction false} EntrySums(order: seq<string>, totals: map<string, Totals>,
                                     revenues: seq<(string, real)>, credits: seq<(string, real)>)
    requires forall name :: name in order ==> name in totals && totals[name] == Totals(SumFor(revenues, name), SumFor(credits, name))
    ensures ConversionsSum(order, totals) == SumGroups(order, credits)
    ensures RevenueSum(order, totals) == SumGroups(order, revenues)
  {
    if order != [] {
      EntrySums(order[..|order| - 1], totals, revenues, credits);
    }
  }

  /**
   * Under a recognised model the unrounded conversions of all entries add up
   * to the number of conversions that have touchpoints, and their unrounded
   * revenue to the revenue of those conversions.
   */
  lemma AttributedTotals(conversions: seq<Conversion>, channels: seq<Channel>, model: string)
    requires Calculations.IsNamedModel(model)
    ensures var after := Attributed(conversions, channels, model);
      && ConversionsSum(after.1, after.0) == |Filter(conversions, HasTouchpoints)| as real
      && RevenueSum(after.1, after.0) == TotalRevenue(Filter(conversions, HasTouchpoints))
  {
    var after := Attributed(conversions, channels, model);
    var revenues, credits := RevenueFlow(conversions, channels, model), CreditFlow(conversions, channels, model);
    AttributedAccumulated(conversions, channels, model);
    EntrySums(after.1, after.0, revenues, credits);
    GroupedTotal(credits);
    GroupedTotal(revenues);
    CreditFlowTotal(conversions, channels, model);
    RevenueFlowTotal(conversions, channels, model);
  }

  /** Under an unrecognised model no touchpoint of a conversion gets credit. */
  lemma {:induction false} UnknownModelConversionZero(conversion: Conversion, channels: seq<Channel>, model: string,
                                                      k: nat, name: string)
    requires !Calculations.IsNamedModel(model)
    requires k <= |conversion.touchpoints|
    ensures SumFor(ConversionCredits(conversion, channels, model, k), name) == 0.0
  {
    if k > 0 {
      var tps := conversion.touchpoints;
      UnknownModelConversionZero(conversion, channels, model, k - 1, name);
      SumForSnoc(ConversionCredits(conversion, channels, model, k - 1),
                 (ChannelName(channels, tps[k - 1].channelId), ChartCredit(model, k - 1, |tps|)), name);
    }
  }

  /** Under an unrecognised model no channel name accumulates credit or revenue. */
  lemma {:induction false} UnknownModelFlowZero(conversions: seq<Conversion>, channels: seq<Channel>, model: string, name: string)
    requires !Calculations.IsNamedModel(model)
    ensures SumFor(CreditFlow(conversions, channels, model), name) == 0.0
    ensures SumFor(RevenueFlow(conversions, channels, model), name) == 0.0
  {
    if conversions != [] {
      var init, last := conversions[..|conversions| - 1], conversions[|conversions| - 1];
      var credits := ConversionCredits(last, channels, model, |last.touchpoints|);
      UnknownModelFlowZero(init, channels, model, name);
      UnknownModelConversionZero(last, channels, model, |last.touchpoints|, name);
      SumForAppend(CreditFlow(init, channels, model), credits, name);
      SumForAppend(RevenueFlow(init, channels, model), Scale(last.revenue, credits), name);
      ScaleSumFor(last.revenue, credits, name);
    }
  }

  /**
   * The chart's `switch` has no `default`: under an unrecognised model every
   * row shows revenue 0 and 0 conversions.
   */
  lemma UnknownModelReport(conversions: seq<Conversion>, channels: seq<Channel>, model: string)
    requires !Calculations.IsNamedModel(model)
    ensures forall row :: row in Report(conversions, channels, model) ==> row.revenue == 0 && row.conversions == 0.0
  {
    var revenues, credits := RevenueFlow(conversions, channels, model), CreditFlow(conversions, channels, model);
    var rows := Rows(revenues, credits);
    var names := Distinct(Keys(credits));
    forall row | row in Report(conversions, channels, model)
      ensures row.revenue == 0 && row.conversions == 0.0
    {
      assert row in multiset(Report(conversions, channels, model));
      assert row in multiset(rows);
      var i :| 0 <= i < |rows| && rows[i] == row;
      UnknownModelFlowZero(conversions, channels, model, names[i]);
    }
  }

  /** Whether a conversion's first touchpoint is on a channel named `name`. */
  function FirstTouchOn(channels: seq<Channel>, name: string): Conversion -> bool {
    (c: Conversion) => |c.touchpoints| > 0 && ChannelName(channels, c.touchpoints[0].channelId) == name
  }

  /** Whether a conversion's last touchpoint is on a channel named `name`. */
  function LastTouchOn(channels: seq<Channel>, name: string): Conversion -> bool {
    (c: Conversion) => |c.touchpoints| > 0 && ChannelName(channels, c.touchpoints[|c.touchpoints| - 1].channelId) == name
  }

  lemma {:induction false} FirstTouchConversion(conversion: Conversion, channels: seq<Channel>, k: nat, name: string)
    requires k <= |conversion.touchpoints|
    ensures SumFor(ConversionCredits(conversion, channels, Calculations.FIRST_TOUCH, k), name)
      == if k > 0 && ChannelName(channels, conversion.touchpoints[0].channelId) == name then 1.0 else 0.0
  {
    if k > 0 {
      var tps := conversion.touchpoints;
      FirstTouchConversion(conversion, channels, k - 1, name);
      SumForSnoc(ConversionCredits(conversion, channels, Calculations.FIRST_TOUCH, k - 1),
                 (ChannelName(channels, tps[k - 1].channelId), ChartCredit(Calculations.FIRST_TOUCH, k - 1, |tps|)), name);
    }
  }

  lemma {:induction false} LastTouchConversion(conversion: Conversion, channels: seq<Channel>, k: nat, name: string)
    requires k <= |conversion.touchpoints|
    ensures SumFor(ConversionCredits(conversion, channels, Calculations.LAST_TOUCH, k), name)
      == if k == |conversion.touchpoints| && LastTouchOn(channels, name)(conversion) then 1.0 else 0.0
  {
    if k > 0 {
      var tps := conversion.touchpoints;
      LastTouchConversion(conversion, channels, k - 1, name);
      SumForSnoc(ConversionCredits(conversion, channels, Calculations.LAST_TOUCH, k - 1),
                 (ChannelName(channels, tps[k - 1].channelId), ChartCredit(Calculations.LAST_TOUCH, k - 1, |tps|)), name);
    }
  }

  /**
   * One step of the conversion-level counts: the credit `last` hands to
   * `name` is 1 when `touches` holds of it and 0 otherwise.
   */
  lemma FlowStep(conversions: seq<Conversion>, channels: seq<Channel>, model: string, name: string, touches: Conversion -> bool)
    requires conversions != []
    requires var init := conversions[..|conversions| - 1];
      && SumFor(CreditFlow(init, channels, model), name) == |Filter(init, touches)| as real
      && SumFor(RevenueFlow(init, channels, model), name) == TotalRevenue(Filter(init, touches))
    requires var last := conversions[|conversions| - 1];
      SumFor(ConversionCredits(last, channels, model, |last.touchpoints|), name) == if touches(last) then 1.0 else 0.0
    ensures SumFor(CreditFlow(conversions, channels, model), name) == |Filter(conversions, touches)| as real
    ensures SumFor(RevenueFlow(conversions, channels, model), name) == TotalRevenue(Filter(conversions, touches))
  {
    var init, last := conversions[..|conversions| - 1], conversions[|conversions| - 1];
    var credits := ConversionCredits(last, channels, model, |last.touchpoints|);
    SumForAppend(CreditFlow(init, channels, model), credits, name);
    SumForAppend(RevenueFlow(init, channels, model), Scale(last.revenue, credits), name);
    ScaleSumFor(last.revenue, credits, name);
    var kept := Filter(init, touches);
    if touches(last) {
      assert (kept + [last])[..|kept|] == kept;
    } else {
      assert kept + [] == kept;
    }
  }

  /**
   * Under first touch, a name's entry counts the conversions whose first
   * touchpoint is on it, and holds their whole revenue.
   */
  lemma {:induction false} FirstTouchEntry(conversions: seq<Conversion>, channels: seq<Channel>, name: string)
    ensures SumFor(CreditFlow(conversions, channels, Calculations.FIRST_TOUCH), name)
      == |Filter(conversions, FirstTouchOn(channels, name))| as real
    ensures SumFor(RevenueFlow(conversions, channels, Calculations.FIRST_TOUCH), name)
      == TotalRevenue(Filter(conversions, FirstTouchOn(channels, name)))
  {
    if conversions != [] {
      var last := conversions[|conversions| - 1];
      FirstTouchEntry(conversions[..|conversions| - 1], channels, name);
      FirstTouchConversion(last, channels, |last.touchpoints|, name);
      FlowStep(conversions, channels, Calculations.FIRST_TOUCH, name, FirstTouchOn(channels, name));
    }
  }

  /**
   * Under last touch, a name's entry counts the conversions whose last
   * touchpoint is on it, and holds their whole revenue.
   */
  lemma {:induction false} LastTouchEntry(conversions: seq<Conversion>, channels: seq<Channel>, name: string)
    ensures SumFor(CreditFlow(conversions, channels, Calculations.LAST_TOUCH), name)
      == |Filter(conversions, LastTouchOn(channels, name))| as real
    ensures SumFor(RevenueFlow(conversions, channels, Calculations.LAST_TOUCH), name)
      == TotalRevenue(Filter(conversions, LastTouchOn(channels, name)))
  {
    if conversions != [] {
      var last := conversions[|conversions| - 1];
      LastTouchEntry(conversions[..|conversions| - 1], channels, name);
      LastTouchConversion(last, channels, |last.touchpoints|, name);
      FlowStep(conversions, channels, Calculations.LAST_TOUCH, name, LastTouchOn(channels, name));
    }
  }

  /** `attributionData.reduce((sum, item) => sum + item.revenue, 0)`. */
  function RevenueTotal(rows: seq<Row>): int {
    if rows == [] then 0 else RevenueTotal(rows[..|rows| - 1]) + rows[|rows| - 1].revenue
  }

  /** A row's `percentage`: its share of the total revenue, or 0 when the total is not positive. */
  function Share(row: Row, total: int): (p: real)
    ensures total <= 0 ==> p == 0.0
    ensures total > 0 ==> p * total as real == row.revenue as real * 100.0
  {
    if total > 0 then row.revenue as real / total as real * 100.0 else 0.0
  }

  /** The shares of the rows, added up. */
  function SharesSum(rows: seq<Row>, total: int): real {
    if rows == [] then 0.0 else SharesSum(rows[..|rows| - 1], total) + Share(rows[|rows| - 1], total)
  }

  lemma {:induction false} SharesScale(rows: seq<Row>, total: int)
    requires total > 0
    ensures SharesSum(rows, total) * total as real == RevenueTotal(rows) as real * 100.0
  {
    if rows != [] {
      var init, last := rows[..|rows| - 1], rows[|rows| - 1];
      SharesScale(init, total);
      var a, b := SharesSum(init, total), Share(last, total);
      assert (a + b) * total as real == a * total as real + b * total as real;
    }
  }

  /** Whenever the total revenue is positive, the shares of the rows add up to 100 percent. */
  lemma SharesSumTo100(rows: seq<Row>)
    requires RevenueTotal(rows) > 0
    ensures SharesSum(rows, RevenueTotal(rows)) == 100.0
  {
    var total := RevenueTotal(rows);
    SharesScale(rows, total);
    var x := SharesSum(rows, total);
    assert x * total as real == total as real * 100.0;
    assert (x - 100.0) * total as real == 0.0;
  }
}
