/**
 * The metric helpers and the per-conversion attribution engine of
 * src/utils/calculations.js.  Numbers are exact reals, so the credit
 * invariants hold exactly rather than up to rounding.
 */
module Calculations {
  import opened Results
  import opened Seqs
  import opened Records

  /** Return on ad spend; 0 when nothing was spent. */
  function CalculateRoas(revenue: real, spend: real): (r: real)
    ensures spend == 0.0 ==> r == 0.0
    ensures spend != 0.0 ==> r * spend == revenue
  {
    if spend == 0.0 then 0.0 else revenue / spend
  }

  /** Cost per acquisition; 0 when there were no conversions. */
  function CalculateCpa(spend: real, conversions: real): (r: real)
    ensures conversions == 0.0 ==> r == 0.0
    ensures conversions != 0.0 ==> r * conversions == spend
  {
    if conversions == 0.0 then 0.0 else spend / conversions
  }

  /** Click-through rate in percent; 0 when there were no impressions. */
  function CalculateCtr(clicks: real, impressions: real): (r: real)
    ensures impressions == 0.0 ==> r == 0.0
    ensures impressions != 0.0 ==> r * impressions == clicks * 100.0
  {
    if impressions == 0.0 then 0.0 else (clicks / impressions) * 100.0
  }

  /** Conversion rate in percent of clicks; 0 when there were no clicks. */
  function CalculateConversionRate(conversions: real, clicks: real): (r: real)
    ensures clicks == 0.0 ==> r == 0.0
    ensures clicks != 0.0 ==> r * clicks == conversions * 100.0
  {
    if clicks == 0.0 then 0.0 else (conversions / clicks) * 100.0
  }

  function CalculateRevenue(conversions: real, averageOrderValue: real): real {
    conversions * averageOrderValue
  }

  /** Revenue built from an average order value has that value as its revenue per conversion. */
  lemma RevenuePerConversion(conversions: real, averageOrderValue: real)
    requires conversions != 0.0
    ensures CalculateCpa(CalculateRevenue(conversions, averageOrderValue), conversions) == averageOrderValue
  {
    var r := CalculateCpa(CalculateRevenue(conversions, averageOrderValue), conversions);
    assert r * conversions == averageOrderValue * conversions;
  }

  /** Margin in percent of revenue; 0 when there was no revenue. */
  function CalculateMargin(revenue: real, costs: real): (r: real)
    ensures revenue == 0.0 ==> r == 0.0
    ensures revenue != 0.0 ==> r * revenue == (revenue - costs) * 100.0
  {
    if revenue == 0.0 then 0.0 else ((revenue - costs) / revenue) * 100.0
  }

  const FIRST_TOUCH := "first-touch"
  const LAST_TOUCH := "last-touch"
  const LINEAR := "linear"
  const TIME_DECAY := "time-decay"

  /** The attribution models the `switch` statements name, and everything else. */
  datatype Model = FirstTouch | LastTouch | Linear | TimeDecay | Other

  /** Which `case` label of a `switch` a model id matches. */
  function ModelOf(model: string): (m: Model)
    ensures m == FirstTouch <==> model == FIRST_TOUCH
    ensures m == LastTouch <==> model == LAST_TOUCH
    ensures m == Linear <==> model == LINEAR
    ensures m == TimeDecay <==> model == TIME_DECAY
  {
    match model
    case "first-touch" => FirstTouch
    case "last-touch" => LastTouch
    case "linear" => Linear
    case "time-decay" => TimeDecay
    case _ => Other
  }

  /** The four attribution models the dashboard offers. */
  predicate IsNamedModel(model: string) {
    !ModelOf(model).Other?
  }

  /** `Math.pow(2, e)` for an integer exponent. */
  function Pow2(e: int): (r: real)
    ensures r > 0.0
    decreases if e < 0 then -e else e
  {
    if e == 0 then 1.0 else if e > 0 then 2.0 * Pow2(e - 1) else Pow2(e + 1) / 2.0
  }

  lemma {:induction false} Pow2Step(e: int)
    ensures Pow2(e + 1) == 2.0 * Pow2(e)
    decreases if e < 0 then -e else e
  {
    if e < -1 {
      Pow2Step(e + 1);
    }
  }

  /** The time-decay weight `2^(index - n + 1)` of touchpoint `index` out of `n`. */
  function TimeWeight(index: nat, n: nat): real {
    Pow2(index - n + 1)
  }

  /** The `reduce` summing the first `k` time-decay weights. */
  function TotalWeight(n: nat, k: nat): (w: real)
    ensures k > 0 ==> w > 0.0
    ensures k == 0 ==> w == 0.0
  {
    if k == 0 then 0.0 else TotalWeight(n, k - 1) + TimeWeight(k - 1, n)
  }

  /**
   * The credit the `switch` of `attributeConversion` gives touchpoint `index`
   * of `n`; a model it does not name takes the `default` (linear) branch.
   */
  function Credit(model: string, index: nat, n: nat): (credit: real)
    requires index < n
    ensures 0.0 <= credit <= 1.0
  {
    match ModelOf(model)
    case FirstTouch => if index == 0 then 1.0 else 0.0
    case LastTouch => if index == n - 1 then 1.0 else 0.0
    case Linear => 1.0 / n as real
    case TimeDecay =>
      TimeDecayBound(index, n);
      FractionBound(TimeWeight(index, n), TotalWeight(n, n));
      TimeWeight(index, n) / TotalWeight(n, n)
    case Other => 1.0 / n as real
  }

  lemma {:induction false} TotalWeightMonotone(n: nat, j: nat, k: nat)
    requires j <= k
    ensures TotalWeight(n, j) <= TotalWeight(n, k)
    decreases k - j
  {
    if j < k {
      TotalWeightMonotone(n, j, k - 1);
    }
  }

  lemma FractionBound(x: real, w: real)
    requires 0.0 <= x <= w && w > 0.0
    ensures 0.0 <= x / w <= 1.0
  {
    assert x / w * w == x;
  }

  lemma AddQuotients(a: real, b: real, w: real)
    requires w > 0.0
    ensures a / w + b / w == (a + b) / w
  {
    var p, q := a / w, b / w;
    assert p * w == a && q * w == b;
    assert (p + q) * w == a + b;
  }

  lemma AddFraction(a: real, b: real, c: real, n: real)
    requires n > 0.0 && c == a + b
    ensures a / n + b * (1.0 / n) == c / n
  {
    var p, q, r := a / n, 1.0 / n, c / n;
    assert p * n == a && q * n == 1.0 && r * n == c;
    assert (p + b * q) * n == p * n + b * (q * n);
  }

  lemma TimeDecayBound(index: nat, n: nat)
    requires index < n
    ensures 0.0 < TimeWeight(index, n) <= TotalWeight(n, n)
  {
    TotalWeightMonotone(n, index + 1, n);
  }

  /** Sum of the credits of the first `k` of `n` touchpoints. */
  function TotalCredit(model: string, n: nat, k: nat): real
    requires k <= n
  {
    if k == 0 then 0.0 else TotalCredit(model, n, k - 1) + Credit(model, k - 1, n)
  }

  /** The channel of every touchpoint, in order. */
  function ChannelIds(tps: seq<Touchpoint>): (ids: seq<int>)
    ensures |ids| == |tps|
    ensures forall i :: 0 <= i < |tps| ==> ids[i] == tps[i].channelId
  {
    seq(|tps|, i requires 0 <= i < |tps| => tps[i].channelId)
  }

  /** (channel, credit) for each of the first `k` touchpoints, as the loop adds them. */
  function CreditPairs(tps: seq<Touchpoint>, model: string, k: nat): (ps: seq<(int, real)>)
    requires k <= |tps|
    ensures |ps| == k
  {
    if k == 0 then []
    else CreditPairs(tps, model, k - 1) + [(tps[k - 1].channelId, Credit(model, k - 1, |tps|))]
  }

  /** Pair `i` is touchpoint `i`'s channel with the credit the model gives position `i`. */
  lemma {:induction false} CreditPairsAt(tps: seq<Touchpoint>, model: string, k: nat)
    requires k <= |tps|
    ensures forall i :: 0 <= i < k ==> CreditPairs(tps, model, k)[i] == (tps[i].channelId, Credit(model, i, |tps|))
  {
    if k > 0 {
      CreditPairsAt(tps, model, k - 1);
    }
  }

  lemma {:induction false} CreditPairsKeys(tps: seq<Touchpoint>, model: string, k: nat)
    requires k <= |tps|
    ensures Keys(CreditPairs(tps, model, k)) == ChannelIds(tps)[..k]
  {
    if k > 0 {
      CreditPairsKeys(tps, model, k - 1);
      KeysSnoc(CreditPairs(tps, model, k - 1), (tps[k - 1].channelId, Credit(model, k - 1, |tps|)));
      assert ChannelIds(tps)[..k] == ChannelIds(tps)[..k - 1] + [tps[k - 1].channelId];
    }
  }

  /** The credit a channel accumulates over a whole touchpoint sequence. */
  function ChannelCredit(tps: seq<Touchpoint>, model: string, channelId: int): real {
    SumFor(CreditPairs(tps, model, |tps|), channelId)
  }

  /** A map holding the sums of every touchpoint's credit holds each channel's credit, for exactly the channels present. */
  lemma SumsOfAllCredits(attribution: map<int, real>, tps: seq<Touchpoint>, model: string)
    requires SumsOf(attribution, CreditPairs(tps, model, |tps|))
    ensures forall c :: c in attribution <==> c in ChannelIds(tps)
    ensures forall c :: c in attribution ==> attribution[c] == ChannelCredit(tps, model, c)
  {
    CreditPairsKeys(tps, model, |tps|);
    assert ChannelIds(tps)[..|tps|] == ChannelIds(tps);
  }

  /**
   * The body of the `forEach` callback: a missing or zero entry is set to 0,
   * then the credit is added to it.
   */
  method CreditTouchpoint(attribution: map<int, real>, channelId: int, credit: real) returns (attribution': map<int, real>)
    ensures attribution' == AddTo(attribution, channelId, credit)
  {
    attribution' := attribution;
    if channelId !in attribution' || attribution'[channelId] == 0.0 {
      attribution' := attribution'[channelId := 0.0];
    }
    attribution' := attribution'[channelId := attribution'[channelId] + credit];
  }

  /** One callback step keeps the map the per-channel sums of the credits handed out so far. */
  lemma CreditPairsStep(attribution: map<int, real>, tps: seq<Touchpoint>, model: string, index: nat)
    requires index < |tps|
    requires SumsOf(attribution, CreditPairs(tps, model, index))
    ensures SumsOf(AddTo(attribution, tps[index].channelId, Credit(model, index, |tps|)), CreditPairs(tps, model, index + 1))
  {
    AddToSumsOf(attribution, CreditPairs(tps, model, index), (tps[index].channelId, Credit(model, index, |tps|)));
  }

  /**
   * `attributeConversion(touchpoints, model = 'last-touch')`: splits one
   * conversion's credit across its touchpoints and accumulates it per channel.
   */
  method AttributeConversion(touchpoints: Option<seq<Touchpoint>>, model: Option<string>)
    returns (attribution: map<int, real>)
    ensures touchpoints.None? ==> attribution == map[]
    ensures touchpoints.Some? ==>
      forall c :: c in attribution <==> c in ChannelIds(touchpoints.value)
    ensures touchpoints.Some? ==>
      forall c :: c in attribution ==>
        attribution[c] == ChannelCredit(touchpoints.value, model.GetOr(LAST_TOUCH), c)
  {
    if touchpoints.None? || |touchpoints.value| == 0 {
      return map[];
    }
    var tps := touchpoints.value;
    var m := model.GetOr(LAST_TOUCH);
    attribution := map[];
    var index := 0;
    while index < |tps|
      invariant 0 <= index <= |tps|
      invariant SumsOf(attribution, CreditPairs(tps, m, index))
    {
      CreditPairsStep(attribution, tps, m, index);
      attribution := CreditTouchpoint(attribution, tps[index].channelId, Credit(m, index, |tps|));
      index := index + 1;
    }
    SumsOfAllCredits(attribution, tps, m);
  }

  // ---- The credits of one conversion sum to 1 ----

  lemma {:induction false} FirstTouchTotal(n: nat, k: nat)
    requires 1 <= k <= n
    ensures TotalCredit(FIRST_TOUCH, n, k) == 1.0
  {
    if k > 1 {
      FirstTouchTotal(n, k - 1);
    }
  }

  lemma {:induction false} LastTouchTotal(n: nat, k: nat)
    requires k < n
    ensures TotalCredit(LAST_TOUCH, n, k) == 0.0
  {
    if k > 0 {
      LastTouchTotal(n, k - 1);
    }
  }

  /** Linear, and every model the switch does not name, gives `k / n` to the first `k` touchpoints. */
  lemma {:induction false} LinearTotal(model: string, n: nat, k: nat)
    requires model != FIRST_TOUCH && model != LAST_TOUCH && model != TIME_DECAY
    requires 1 <= n && k <= n
    ensures TotalCredit(model, n, k) == k as real / n as real
  {
    if k > 0 {
      LinearTotal(model, n, k - 1);
    }
  }

  lemma {:induction false} TimeDecayTotal(n: nat, k: nat)
    requires 1 <= n && k <= n
    ensures TotalCredit(TIME_DECAY, n, k) == TotalWeight(n, k) / TotalWeight(n, n)
  {
    if k > 0 {
      TimeDecayTotal(n, k - 1);
      assert Credit(TIME_DECAY, k - 1, n) == TimeWeight(k - 1, n) / TotalWeight(n, n);
      AddQuotients(TotalWeight(n, k - 1), TimeWeight(k - 1, n), TotalWeight(n, n));
    }
  }

  /** Whatever the model, the credits handed to the `n >= 1` touchpoints of a conversion add up to 1. */
  lemma CreditsSumToOne(model: string, n: nat)
    requires n >= 1
    ensures TotalCredit(model, n, n) == 1.0
  {
    if model == FIRST_TOUCH {
      FirstTouchTotal(n, n);
    } else if model == LAST_TOUCH {
      LastTouchTotal(n, n - 1);
    } else if model == TIME_DECAY {
      TimeDecayTotal(n, n);
    } else {
      LinearTotal(model, n, n);
    }
  }

  lemma {:induction false} CreditPairsTotal(tps: seq<Touchpoint>, model: string, k: nat)
    requires k <= |tps|
    ensures Total(CreditPairs(tps, model, k)) == TotalCredit(model, |tps|, k)
  {
    if k > 0 {
      CreditPairsTotal(tps, model, k - 1);
      TotalSnoc(CreditPairs(tps, model, k - 1), (tps[k - 1].channelId, Credit(model, k - 1, |tps|)));
    }
  }

  /**
   * Summed over the distinct channels of a non-empty touchpoint list, the
   * per-channel credits `attributeConversion` returns add up to exactly 1.
   */
  lemma ChannelCreditsSumToOne(tps: seq<Touchpoint>, model: string)
    requires |tps| >= 1
    ensures SumGroups(Distinct(ChannelIds(tps)), CreditPairs(tps, model, |tps|)) == 1.0
  {
    var pairs := CreditPairs(tps, model, |tps|);
    CreditPairsKeys(tps, model, |tps|);
    assert ChannelIds(tps)[..|tps|] == ChannelIds(tps);
    GroupedTotal(pairs);
    CreditPairsTotal(tps, model, |tps|);
    CreditsSumToOne(model, |tps|);
  }

  /** Each channel's accumulated credit lies in [0, 1]. */
  lemma ChannelCreditBounds(tps: seq<Touchpoint>, model: string, channelId: int)
    ensures 0.0 <= ChannelCredit(tps, model, channelId) <= 1.0
  {
    var pairs := CreditPairs(tps, model, |tps|);
    CreditPairsAt(tps, model, |tps|);
    SumForBounds(pairs, channelId);
    CreditPairsTotal(tps, model, |tps|);
    if |tps| >= 1 {
      CreditsSumToOne(model, |tps|);
    }
  }

  // ---- What each model hands to each channel ----

  lemma {:induction false} FirstTouchPrefix(tps: seq<Touchpoint>, k: nat, channelId: int)
    requires 1 <= k <= |tps|
    ensures SumFor(CreditPairs(tps, FIRST_TOUCH, k), channelId)
      == if channelId == tps[0].channelId then 1.0 else 0.0
  {
    var pairs := CreditPairs(tps, FIRST_TOUCH, k - 1);
    var p := (tps[k - 1].channelId, Credit(FIRST_TOUCH, k - 1, |tps|));
    SumForSnoc(pairs, p, channelId);
    if k > 1 {
      FirstTouchPrefix(tps, k - 1, channelId);
    }
  }

  /** First-touch puts the whole credit on the channel of the first touchpoint. */
  lemma FirstTouchCredit(tps: seq<Touchpoint>, channelId: int)
    requires |tps| >= 1
    ensures ChannelCredit(tps, FIRST_TOUCH, channelId) == if channelId == tps[0].channelId then 1.0 else 0.0
  {
    FirstTouchPrefix(tps, |tps|, channelId);
  }

  lemma {:induction false} LastTouchPrefix(tps: seq<Touchpoint>, k: nat, channelId: int)
    requires k < |tps|
    ensures SumFor(CreditPairs(tps, LAST_TOUCH, k), channelId) == 0.0
  {
    if k > 0 {
      LastTouchPrefix(tps, k - 1, channelId);
      SumForSnoc(CreditPairs(tps, LAST_TOUCH, k - 1), (tps[k - 1].channelId, Credit(LAST_TOUCH, k - 1, |tps|)), channelId);
    }
  }

  /** Last-touch puts the whole credit on the channel of the last touchpoint. */
  lemma LastTouchCredit(tps: seq<Touchpoint>, channelId: int)
    requires |tps| >= 1
    ensures ChannelCredit(tps, LAST_TOUCH, channelId) == if channelId == tps[|tps| - 1].channelId then 1.0 else 0.0
  {
    var n := |tps|;
    LastTouchPrefix(tps, n - 1, channelId);
    SumForSnoc(CreditPairs(tps, LAST_TOUCH, n - 1), (tps[n - 1].channelId, Credit(LAST_TOUCH, n - 1, n)), channelId);
  }

  lemma {:induction false} LinearPrefix(tps: seq<Touchpoint>, model: string, k: nat, channelId: int)
    requires model != FIRST_TOUCH && model != LAST_TOUCH && model != TIME_DECAY
    requires 1 <= |tps| && k <= |tps|
    ensures SumFor(CreditPairs(tps, model, k), channelId)
      == Count(ChannelIds(tps)[..k], channelId) as real / |tps| as real
  {
    if k > 0 {
      var n := |tps| as real;
      var credit := Credit(model, k - 1, |tps|);
      assert credit == 1.0 / n;
      LinearPrefix(tps, model, k - 1, channelId);
      SumForSnoc(CreditPairs(tps, model, k - 1), (tps[k - 1].channelId, credit), channelId);
      assert ChannelIds(tps)[..k] == ChannelIds(tps)[..k - 1] + [tps[k - 1].channelId];
      CountSnoc(ChannelIds(tps)[..k - 1], tps[k - 1].channelId, channelId);
      var before := Count(ChannelIds(tps)[..k - 1], channelId) as real;
      var step := if tps[k - 1].channelId == channelId then 1.0 else 0.0;
      assert Count(ChannelIds(tps)[..k], channelId) as real == before + step;
      AddFraction(before, step, Count(ChannelIds(tps)[..k], channelId) as real, n);
      assert SumFor(CreditPairs(tps, model, k), channelId) == before / n + step * credit;
    }
  }

  /**
   * Under linear (and under any model the switch does not name) a channel's
   * credit is the fraction of touchpoints that are on it.
   */
  lemma LinearCredit(tps: seq<Touchpoint>, model: string, channelId: int)
    requires model != FIRST_TOUCH && model != LAST_TOUCH && model != TIME_DECAY
    requires |tps| >= 1
    ensures ChannelCredit(tps, model, channelId) == Count(ChannelIds(tps), channelId) as real / |tps| as real
  {
    LinearPrefix(tps, model, |tps|, channelId);
    assert ChannelIds(tps)[..|tps|] == ChannelIds(tps);
  }

  /** A model the switch does not name is handled exactly like linear. */
  lemma UnknownModelIsLinear(tps: seq<Touchpoint>, model: string, channelId: int)
    requires !IsNamedModel(model)
    ensures ChannelCredit(tps, model, channelId) == ChannelCredit(tps, LINEAR, channelId)
  {
    CreditPairsAt(tps, model, |tps|);
    CreditPairsAt(tps, LINEAR, |tps|);
    assert CreditPairs(tps, model, |tps|) == CreditPairs(tps, LINEAR, |tps|);
  }

  // ---- Time decay ----

  /** Each touchpoint gets twice the credit of the one before it. */
  lemma TimeDecayHalving(index: nat, n: nat)
    requires index + 1 < n
    ensures 2.0 * Credit(TIME_DECAY, index, n) == Credit(TIME_DECAY, index + 1, n)
  {
    Pow2Step(index - n + 1);
  }

  /** The last touchpoint gets the largest share. */
  lemma {:induction false} TimeDecayLastLargest(index: nat, n: nat)
    requires index < n
    ensures Credit(TIME_DECAY, index, n) <= Credit(TIME_DECAY, n - 1, n)
    decreases n - index
  {
    if index + 1 < n {
      TimeDecayHalving(index, n);
      TimeDecayLastLargest(index + 1, n);
    }
  }

  /** With two touchpoints the split is one third, two thirds. */
  lemma TimeDecayTwoTouchpoints()
    ensures Credit(TIME_DECAY, 0, 2) == 1.0 / 3.0
    ensures Credit(TIME_DECAY, 1, 2) == 2.0 / 3.0
  {
    assert Pow2(-1) == 0.5 by { Pow2Step(-1); }
    assert TotalWeight(2, 2) == 1.5;
  }
}
