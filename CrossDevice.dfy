/**
 * src/services/api/crossDeviceService.js: conversions turned into
 * cross-device journeys.  The device of a touchpoint is inferred from its
 * interaction, or drawn at random; touchpoints are grouped per device in
 * first-seen order; journeys are filtered by time and device and listed
 * newest first; metrics and device-to-device transitions are derived from
 * them.  `Math.random()` is the parameter `random` (one draw per touchpoint),
 * and `new Date()` is the parameter `now` (milliseconds).
 */
module CrossDevice {
  import opened Results
  import opened Seqs
  import opened Records
  import Calculations
  import Tables

  const MOBILE := "mobile"
  const DESKTOP := "desktop"
  const TABLET := "tablet"
  const ALL := "all"

  const MOBILE_INTERACTIONS: seq<string> := ["app_install", "push_notification", "sms_click"]
  const DESKTOP_INTERACTIONS: seq<string> := ["email_click", "form_submit", "download"]
  const TABLET_INTERACTIONS: seq<string> := ["video_view", "social_share"]

  /** The devices of the random fallback and their probability weights. */
  const DEVICES: seq<string> := [DESKTOP, MOBILE, TABLET, "smart_tv", "wearable"]
  const WEIGHTS: seq<real> := [0.4, 0.35, 0.15, 0.07, 0.03]

  /** The device an interaction name fixes, if it fixes one. */
  function KnownDevice(interaction: string): (d: Option<string>)
    ensures d == Some(MOBILE) <==>
      interaction == "app_install" || interaction == "push_notification" || interaction == "sms_click"
    ensures d == Some(DESKTOP) <==>
      interaction == "email_click" || interaction == "form_submit" || interaction == "download"
    ensures d == Some(TABLET) <==> interaction == "video_view" || interaction == "social_share"
    ensures d.Some? ==> d.value in [MOBILE, DESKTOP, TABLET]
  {
    if interaction in MOBILE_INTERACTIONS then Some(MOBILE)
    else if interaction in DESKTOP_INTERACTIONS then Some(DESKTOP)
    else if interaction in TABLET_INTERACTIONS then Some(TABLET)
    else None
  }

  /** The weights of the first `k` fallback devices, added up. */
  function WeightSum(k: nat): real
    requires k <= |WEIGHTS|
  {
    if k == 0 then 0.0 else WeightSum(k - 1) + WEIGHTS[k - 1]
  }

  /**
   * The fallback device for a draw, by cumulative weight: desktop up to 0.4,
   * mobile up to 0.75, tablet up to 0.9, smart TV up to 0.97, wearable up to
   * 1, and desktop past that.
   */
  function WeightedDevice(random: real): string {
    if random <= 0.4 then DESKTOP
    else if random <= 0.75 then MOBILE
    else if random <= 0.9 then TABLET
    else if random <= 0.97 then "smart_tv"
    else if random <= 1.0 then "wearable"
    else DESKTOP
  }

  /**
   * The fallback loop of `inferDeviceType`: subtracts each weight from the
   * draw and stops at the first device that takes it to 0 or below.
   */
  method DrawDevice(random: real) returns (device: string)
    ensures device == WeightedDevice(random)
  {
    var r := random;
    var i := 0;
    while i < |DEVICES|
      invariant 0 <= i <= |DEVICES|
      invariant r == random - WeightSum(i)
      invariant i > 0 ==> random > WeightSum(i)
    {
      r := r - WEIGHTS[i];
      if r <= 0.0 {
        assert WeightSum(1) == 0.4 && WeightSum(2) == 0.75 && WeightSum(3) == 0.9
          && WeightSum(4) == 0.97 && WeightSum(5) == 1.0;
        return DEVICES[i];
      }
      i := i + 1;
    }
    return DESKTOP;
  }

  /** The device inferred for an interaction, given the draw used when the interaction fixes none. */
  function DeviceOf(interaction: string, random: real): string {
    match KnownDevice(interaction)
    case Some(d) => d
    case None => WeightedDevice(random)
  }

  /** Known interactions are inferred the same way whatever the draw; every answer is one of the five devices. */
  lemma DeviceInference(interaction: string, random: real, other: real)
    ensures KnownDevice(interaction).Some? ==> DeviceOf(interaction, random) == DeviceOf(interaction, other)
    ensures DeviceOf(interaction, random) in DEVICES
  {
  }

  /** `inferDeviceType`: the fixed device of a known interaction, otherwise a weighted draw. */
  method InferDeviceType(touchpoint: Touchpoint, random: real) returns (device: string)
    ensures device == DeviceOf(touchpoint.interaction, random)
  {
    if touchpoint.interaction in MOBILE_INTERACTIONS {
      return MOBILE;
    } else if touchpoint.interaction in DESKTOP_INTERACTIONS {
      return DESKTOP;
    } else if touchpoint.interaction in TABLET_INTERACTIONS {
      return TABLET;
    }
    device := DrawDevice(random);
  }

  /** `getChannelName` of the service: a fixed table of eight channels. */
  function ServiceChannelName(channelId: int): (name: string)
    ensures 1 <= channelId <= 8 <==> name != UNKNOWN_CHANNEL
  {
    match channelId
    case 1 => "Google Ads"
    case 2 => "Facebook Ads"
    case 3 => "Instagram Ads"
    case 4 => "LinkedIn Ads"
    case 5 => "YouTube Ads"
    case 6 => "Email Marketing"
    case 7 => "Organic Search"
    case 8 => "Direct Traffic"
    case _ => UNKNOWN_CHANNEL
  }

  /** A touchpoint as listed under its device. */
  datatype DeviceTouch = DeviceTouch(channel: string, interaction: string, timestamp: int)

  /** One device of a journey (`type` in the source). */
  datatype Device = Device(deviceType: string, firstInteraction: int, lastInteraction: int, touchpoints: seq<DeviceTouch>)

  function Touch(touchpoint: Touchpoint): DeviceTouch {
    DeviceTouch(ServiceChannelName(touchpoint.channelId), touchpoint.interaction, touchpoint.timestamp)
  }

  /** The devices inferred for the first `k` touchpoints, `draws(i)` being the draw of touchpoint `i`. */
  function DeviceTypes(touchpoints: seq<Touchpoint>, draws: nat -> real, k: nat): (types: seq<string>)
    requires k <= |touchpoints|
    ensures |types| == k
  {
    if k == 0 then []
    else DeviceTypes(touchpoints, draws, k - 1) + [DeviceOf(touchpoints[k - 1].interaction, draws(k - 1))]
  }

  /** The first `k` touchpoints inferred to be on device `t`, in input order. */
  function Bucket(touchpoints: seq<Touchpoint>, draws: nat -> real, k: nat, t: string): (b: seq<DeviceTouch>)
    requires k <= |touchpoints|
    ensures |b| == Count(DeviceTypes(touchpoints, draws, k), t)
  {
    if k == 0 then []
    else
      var types := DeviceTypes(touchpoints, draws, k);
      assert types[..k - 1] == DeviceTypes(touchpoints, draws, k - 1);
      Bucket(touchpoints, draws, k - 1, t)
        + if types[k - 1] == t then [Touch(touchpoints[k - 1])] else []
  }

  /**
   * The entry of device `t` after the first `k` touchpoints: its touchpoints
   * in input order, the first one's timestamp and the last one's.
   */
  function DeviceFor(touchpoints: seq<Touchpoint>, draws: nat -> real, k: nat, t: string): Device
    requires k <= |touchpoints|
    requires t in DeviceTypes(touchpoints, draws, k)
  {
    var b := Bucket(touchpoints, draws, k, t);
    Device(t, b[0].timestamp, b[|b| - 1].timestamp, b)
  }

  /** The key of the final sort: ascending by first interaction. */
  function FirstSeen(device: Device): real {
    device.firstInteraction as real
  }

  /** The entries of the `Map`, in insertion order: one per device inferred, in first-seen order. */
  function Entries(touchpoints: seq<Touchpoint>, draws: nat -> real): (entries: seq<Device>)
    ensures |entries| == |Distinct(DeviceTypes(touchpoints, draws, |touchpoints|))|
  {
    var n := |touchpoints|;
    var types := Distinct(DeviceTypes(touchpoints, draws, n));
    seq(|types|, i requires 0 <= i < |types| => DeviceFor(touchpoints, draws, n, types[i]))
  }

  /**
   * What `extractDevicesFromTouchpoints` returns: one entry per device
   * inferred, ordered by first interaction (ties in first-seen order).
   */
  function Devices(touchpoints: seq<Touchpoint>, draws: nat -> real): seq<Device> {
    SortAsc(Entries(touchpoints, draws), FirstSeen)
  }

  /** One device per device inferred, ordered by first interaction. */
  lemma DevicesSorted(touchpoints: seq<Touchpoint>, draws: nat -> real)
    ensures |Devices(touchpoints, draws)| == |Distinct(DeviceTypes(touchpoints, draws, |touchpoints|))|
    ensures forall i, j :: 0 <= i < j < |Devices(touchpoints, draws)| ==>
      Devices(touchpoints, draws)[i].firstInteraction <= Devices(touchpoints, draws)[j].firstInteraction
  {
    var devices := Devices(touchpoints, draws);
    assert forall i, j :: 0 <= i < j < |devices| ==> FirstSeen(devices[i]) <= FirstSeen(devices[j]);
  }

  /**
   * The `Map` after one callback step: the device's entry is created when
   * missing, then takes the touchpoint as its last one.
   */
  function Place(deviceMap: map<string, Device>, deviceType: string, touchpoint: Touchpoint): map<string, Device> {
    var created := if deviceType !in deviceMap
      then deviceMap[deviceType := Device(deviceType, touchpoint.timestamp, touchpoint.timestamp, [])]
      else deviceMap;
    var device := created[deviceType];
    created[deviceType := device.(lastInteraction := touchpoint.timestamp, touchpoints := device.touchpoints + [Touch(touchpoint)])]
  }

  /** The `Map`'s key order after one callback step: a new device goes last. */
  function PlaceOrder(order: seq<string>, deviceMap: map<string, Device>, deviceType: string): seq<string> {
    if deviceType !in deviceMap then order + [deviceType] else order
  }

  /** The `Map` and its key order after the first `k` touchpoints. */
  function Grouped(touchpoints: seq<Touchpoint>, draws: nat -> real, k: nat): (map<string, Device>, seq<string>)
    requires k <= |touchpoints|
  {
    if k == 0 then (map[], [])
    else
      var before := Grouped(touchpoints, draws, k - 1);
      var deviceType := DeviceOf(touchpoints[k - 1].interaction, draws(k - 1));
      (Place(before.0, deviceType, touchpoints[k - 1]), PlaceOrder(before.1, before.0, deviceType))
  }

  /**
   * `deviceMap` and its key order `order` hold, for each device inferred for
   * the first `k` touchpoints, in first-seen order, that device's entry.
   */
  ghost predicate EntriesAfter(touchpoints: seq<Touchpoint>, draws: nat -> real, k: nat,
                               deviceMap: map<string, Device>, order: seq<string>)
    requires k <= |touchpoints|
  {
    && order == Distinct(DeviceTypes(touchpoints, draws, k))
    && (forall u :: u in deviceMap <==> u in order)
    && (forall u :: u in deviceMap ==> deviceMap[u] == DeviceFor(touchpoints, draws, k, u))
  }

  /** `deviceMap` holds exactly the entries of the devices inferred for the first `k` touchpoints. */
  ghost predicate Covers(touchpoints: seq<Touchpoint>, draws: nat -> real, k: nat, deviceMap: map<string, Device>)
    requires k <= |touchpoints|
  {
    && (forall u :: u in deviceMap <==> u in DeviceTypes(touchpoints, draws, k))
    && (forall u :: u in deviceMap ==> deviceMap[u] == DeviceFor(touchpoints, draws, k, u))
  }

  /** One callback step turns the entry of device `t` after `k` touchpoints into that after `k + 1`. */
  lemma PlaceEntry(touchpoints: seq<Touchpoint>, draws: nat -> real, deviceMap: map<string, Device>, k: nat, t: string)
    requires k < |touchpoints|
    requires Covers(touchpoints, draws, k, deviceMap)
    requires t in Place(deviceMap, DeviceOf(touchpoints[k].interaction, draws(k)), touchpoints[k])
    ensures t in DeviceTypes(touchpoints, draws, k + 1)
    ensures Place(deviceMap, DeviceOf(touchpoints[k].interaction, draws(k)), touchpoints[k])[t]
      == DeviceFor(touchpoints, draws, k + 1, t)
  {
    var ty, tp := DeviceOf(touchpoints[k].interaction, draws(k)), touchpoints[k];
    var types := DeviceTypes(touchpoints, draws, k);
    assert DeviceTypes(touchpoints, draws, k + 1) == types + [ty];
    var b, b' := Bucket(touchpoints, draws, k, t), Bucket(touchpoints, draws, k + 1, t);
    if t == ty {
      assert b' == b + [Touch(tp)];
      if t in deviceMap {
        assert (b + [Touch(tp)])[0] == b[0];
      } else {
        assert b == [];
      }
    } else {
      assert b' == b;
    }
  }

  /** One callback step adds the device to the keys and to their order, when it is new. */
  lemma PlaceKeys(deviceMap: map<string, Device>, order: seq<string>, deviceType: string, touchpoint: Touchpoint)
    requires forall u :: u in deviceMap <==> u in order
    ensures forall u :: u in Place(deviceMap, deviceType, touchpoint) <==> u in PlaceOrder(order, deviceMap, deviceType)
  {
    assert Place(deviceMap, deviceType, touchpoint).Keys == deviceMap.Keys + {deviceType};
  }

  /** One callback step appends the device to the key order exactly when it is seen for the first time. */
  lemma PlaceOrderStep(touchpoints: seq<Touchpoint>, draws: nat -> real, k: nat,
                       deviceMap: map<string, Device>, order: seq<string>)
    requires k < |touchpoints|
    requires EntriesAfter(touchpoints, draws, k, deviceMap, order)
    ensures PlaceOrder(order, deviceMap, DeviceOf(touchpoints[k].interaction, draws(k)))
      == Distinct(DeviceTypes(touchpoints, draws, k + 1))
  {
    var deviceType := DeviceOf(touchpoints[k].interaction, draws(k));
    var types := DeviceTypes(touchpoints, draws, k);
    assert DeviceTypes(touchpoints, draws, k + 1) == types + [deviceType];
    DistinctSnoc(types, deviceType);
    assert deviceType in deviceMap <==> deviceType in order;
  }

  /** One callback step keeps the `Map` the entries of the touchpoints seen so far. */
  lemma PlaceStep(touchpoints: seq<Touchpoint>, draws: nat -> real, k: nat,
                  deviceMap: map<string, Device>, order: seq<string>)
    requires k < |touchpoints|
    requires EntriesAfter(touchpoints, draws, k, deviceMap, order)
    ensures var deviceType := DeviceOf(touchpoints[k].interaction, draws(k));
      EntriesAfter(touchpoints, draws, k + 1, Place(deviceMap, deviceType, touchpoints[k]),
                   PlaceOrder(order, deviceMap, deviceType))
  {
    var deviceType := DeviceOf(touchpoints[k].interaction, draws(k));
    PlaceOrderStep(touchpoints, draws, k, deviceMap, order);
    assert Covers(touchpoints, draws, k, deviceMap);
    var after := Place(deviceMap, deviceType, touchpoints[k]);
    PlaceKeys(deviceMap, order, deviceType, touchpoints[k]);
    forall t | t in after
      ensures after[t] == DeviceFor(touchpoints, draws, k + 1, t)
    {
      PlaceEntry(touchpoints, draws, deviceMap, k, t);
    }
  }

  /** After `k` touchpoints, the `Map` holds the entry of each device seen, in first-seen order. */
  lemma {:induction false} GroupedEntries(touchpoints: seq<Touchpoint>, draws: nat -> real, k: nat)
    requires k <= |touchpoints|
    ensures EntriesAfter(touchpoints, draws, k, Grouped(touchpoints, draws, k).0, Grouped(touchpoints, draws, k).1)
  {
    if k > 0 {
      GroupedEntries(touchpoints, draws, k - 1);
      var before := Grouped(touchpoints, draws, k - 1);
      PlaceStep(touchpoints, draws, k - 1, before.0, before.1);
    }
  }

  /** `Array.from(deviceMap.values())`: the entries in the order their keys were inserted. */
  function Values(deviceMap: map<string, Device>, order: seq<string>): (values: seq<Device>)
    requires forall u :: u in order ==> u in deviceMap
    ensures |values| == |order|
    ensures forall i :: 0 <= i < |order| ==> values[i] == deviceMap[order[i]]
  {
    seq(|order|, i requires 0 <= i < |order| => deviceMap[order[i]])
  }

  /** Once every touchpoint is placed, the values of the `Map` are the devices' entries in first-seen order. */
  lemma GroupedValues(touchpoints: seq<Touchpoint>, draws: nat -> real)
    ensures var grouped := Grouped(touchpoints, draws, |touchpoints|);
      && (forall u :: u in grouped.1 ==> u in grouped.0)
      && Values(grouped.0, grouped.1) == Entries(touchpoints, draws)
  {
    GroupedEntries(touchpoints, draws, |touchpoints|);
  }

  /** The body of the `forEach` callback, for a touchpoint whose device is already inferred. */
  method PlaceTouchpoint(deviceMap: map<string, Device>, order: seq<string>, deviceType: string, touchpoint: Touchpoint)
    returns (deviceMap': map<string, Device>, order': seq<string>)
    ensures deviceMap' == Place(deviceMap, deviceType, touchpoint)
    ensures order' == PlaceOrder(order, deviceMap, deviceType)
  {
    deviceMap', order' := deviceMap, order;
    if deviceType !in deviceMap' {
      deviceMap' := deviceMap'[deviceType := Device(deviceType, touchpoint.timestamp, touchpoint.timestamp, [])];
      order' := order' + [deviceType];
    }
    var device := deviceMap'[deviceType];
    device := device.(lastInteraction := touchpoint.timestamp, touchpoints := device.touchpoints + [Touch(touchpoint)]);
    deviceMap' := deviceMap'[deviceType := device];
  }

  /** One more touchpoint places its device in the `Map` built from the ones before it. */
  lemma GroupedNext(touchpoints: seq<Touchpoint>, draws: nat -> real, k: nat)
    requires k < |touchpoints|
    ensures var before, deviceType := Grouped(touchpoints, draws, k), DeviceOf(touchpoints[k].interaction, draws(k));
      Grouped(touchpoints, draws, k + 1)
        == (Place(before.0, deviceType, touchpoints[k]), PlaceOrder(before.1, before.0, deviceType))
  {
  }

  /** The `forEach` of `extractDevicesFromTouchpoints`: fills the `Map` touchpoint by touchpoint. */
  method GroupTouchpoints(touchpoints: seq<Touchpoint>, draws: nat -> real)
    returns (deviceMap: map<string, Device>, order: seq<string>)
    ensures (deviceMap, order) == Grouped(touchpoints, draws, |touchpoints|)
  {
    deviceMap, order := map[], [];
    var index := 0;
    while index < |touchpoints|
      invariant 0 <= index <= |touchpoints|
      invariant (deviceMap, order) == Grouped(touchpoints, draws, index)
    {
      var touchpoint := touchpoints[index];
      var deviceType := InferDeviceType(touchpoint, draws(index));
      GroupedNext(touchpoints, draws, index);
      deviceMap, order := PlaceTouchpoint(deviceMap, order, deviceType, touchpoint);
      index := index + 1;
    }
  }

  /**
   * `extractDevicesFromTouchpoints`: a `Map` from device to entry, in
   * insertion order, filled touchpoint by touchpoint, then sorted.
   */
  method ExtractDevices(touchpoints: seq<Touchpoint>, draws: nat -> real) returns (devices: seq<Device>)
    ensures devices == Devices(touchpoints, draws)
  {
    var deviceMap, order := GroupTouchpoints(touchpoints, draws);
    GroupedValues(touchpoints, draws);
    devices := SortAsc(Values(deviceMap, order), FirstSeen);
  }

  /** The number of touchpoints listed under a device. */
  function Size(device: Device): int {
    |device.touchpoints|
  }

  function Kind(device: Device): string {
    device.deviceType
  }

  /** The entries of the devices `types` hold as many touchpoints as were inferred to be on them. */
  lemma {:induction false} SizeOfEntries(touchpoints: seq<Touchpoint>, draws: nat -> real, types: seq<string>)
    requires forall t :: t in types ==> t in DeviceTypes(touchpoints, draws, |touchpoints|)
    ensures SumOf(seq(|types|, i requires 0 <= i < |types| => DeviceFor(touchpoints, draws, |touchpoints|, types[i])), Size)
      == SumCounts(types, DeviceTypes(touchpoints, draws, |touchpoints|))
  {
    var n := |touchpoints|;
    if types != [] {
      var init, last := types[..|types| - 1], types[|types| - 1];
      SizeOfEntries(touchpoints, draws, init);
      var front := seq(|init|, i requires 0 <= i < |init| => DeviceFor(touchpoints, draws, n, init[i]));
      var d := DeviceFor(touchpoints, draws, n, last);
      var whole := seq(|types|, i requires 0 <= i < |types| => DeviceFor(touchpoints, draws, n, types[i]));
      forall i | 0 <= i < |types| ensures whole[i] == (front + [d])[i] {
        if i < |init| {
          assert types[i] == init[i];
        }
      }
      assert whole == front + [d];
      SumOfAppend(front, [d], Size);
      assert SumOf([d], Size) == Size(d) by {
        assert [d][1..] == [];
      }
    }
  }

  /** The devices hold every touchpoint exactly once between them. */
  lemma DevicesCover(touchpoints: seq<Touchpoint>, draws: nat -> real)
    ensures SumOf(Devices(touchpoints, draws), Size) == |touchpoints|
  {
    var types := DeviceTypes(touchpoints, draws, |touchpoints|);
    SumOfSortAsc(Entries(touchpoints, draws), FirstSeen, Size);
    SizeOfEntries(touchpoints, draws, Distinct(types));
    CountsPartition(types);
  }

  /** No device is listed twice. */
  lemma DevicesDistinct(touchpoints: seq<Touchpoint>, draws: nat -> real)
    ensures forall i, j :: 0 <= i < j < |Devices(touchpoints, draws)| ==>
      Devices(touchpoints, draws)[i].deviceType != Devices(touchpoints, draws)[j].deviceType
  {
    var entries := Entries(touchpoints, draws);
    var types := Distinct(DeviceTypes(touchpoints, draws, |touchpoints|));
    assert forall i :: 0 <= i < |entries| ==> Kind(entries[i]) == types[i];
    SortAscNoDupBy(entries, FirstSeen, Kind);
    var devices := Devices(touchpoints, draws);
    assert forall i, j :: 0 <= i < j < |devices| ==> Kind(devices[i]) != Kind(devices[j]);
  }

  /** The `i`-th entry is that of the `i`-th device inferred. */
  lemma EntryAt(touchpoints: seq<Touchpoint>, draws: nat -> real, i: nat)
    requires i < |Entries(touchpoints, draws)|
    ensures var types := Distinct(DeviceTypes(touchpoints, draws, |touchpoints|));
      && types[i] in DeviceTypes(touchpoints, draws, |touchpoints|)
      && Entries(touchpoints, draws)[i] == DeviceFor(touchpoints, draws, |touchpoints|, types[i])
  {
    var types := Distinct(DeviceTypes(touchpoints, draws, |touchpoints|));
    assert types[i] in types;
  }

  /** The entries are exactly those of the devices inferred. */
  lemma EntriesMembers(touchpoints: seq<Touchpoint>, draws: nat -> real)
    ensures forall d :: d in Entries(touchpoints, draws) <==>
      exists t :: t in DeviceTypes(touchpoints, draws, |touchpoints|) && d == DeviceFor(touchpoints, draws, |touchpoints|, t)
  {
    var n := |touchpoints|;
    var entries := Entries(touchpoints, draws);
    var types := Distinct(DeviceTypes(touchpoints, draws, n));
    forall d ensures d in entries <==>
      exists t :: t in DeviceTypes(touchpoints, draws, n) && d == DeviceFor(touchpoints, draws, n, t)
    {
      if d in entries {
        var i :| 0 <= i < |entries| && entries[i] == d;
        EntryAt(touchpoints, draws, i);
      }
      if t :| t in DeviceTypes(touchpoints, draws, n) && d == DeviceFor(touchpoints, draws, n, t) {
        var i :| 0 <= i < |types| && types[i] == t;
        EntryAt(touchpoints, draws, i);
      }
    }
  }

  /**
   * Each device lists, in input order, the touchpoints inferred to be on it,
   * and runs from the first one's timestamp to the last one's.
   */
  lemma DevicesEntries(touchpoints: seq<Touchpoint>, draws: nat -> real)
    ensures forall d :: d in Devices(touchpoints, draws) <==>
      exists t :: t in DeviceTypes(touchpoints, draws, |touchpoints|) && d == DeviceFor(touchpoints, draws, |touchpoints|, t)
  {
    EntriesMembers(touchpoints, draws);
    SortAscMembers(Entries(touchpoints, draws), FirstSeen);
  }

  /** A journey (`isConverted` is always true). */
  datatype Journey = Journey(
    Id: int,
    customerId: string,
    startTime: int,
    endTime: int,
    isConverted: bool,
    revenue: real,
    devices: seq<Device>,
    totalTouchpoints: nat)

  /** The look-back of a time range: 7, 30 or 90 days, 7 for any other value. */
  function DaysBack(timeRange: string): (days: int)
    ensures timeRange == "30d" ==> days == 30
    ensures timeRange == "90d" ==> days == 90
    ensures timeRange != "30d" && timeRange != "90d" ==> days == 7
  {
    if timeRange == "7d" then 7
    else if timeRange == "30d" then 30
    else if timeRange == "90d" then 90
    else 7
  }

  /** The journey of one conversion, its devices drawn with `draws`. */
  function JourneyOf(conversion: Conversion, draws: nat -> real): Journey {
    var devices := Devices(conversion.touchpoints, draws);
    Journey(conversion.Id, conversion.customerId,
            if |devices| > 0 then devices[0].firstInteraction else conversion.timestamp,
            conversion.timestamp, true, conversion.revenue, devices, |conversion.touchpoints|)
  }

  predicate HasDevice(devices: seq<Device>, deviceType: string) {
    exists i :: 0 <= i < |devices| && devices[i].deviceType == deviceType
  }

  /** The conversion-to-journey callback of the `map`. */
  function JourneyWith(draws: Conversion -> nat -> real): Conversion -> Journey {
    (c: Conversion) => JourneyOf(c, draws(c))
  }

  /** The first `filter`: the conversion is at or after the cutoff. */
  function Recent(cutoff: int): Conversion -> bool {
    (c: Conversion) => c.timestamp >= cutoff
  }

  /**
   * The `null` the `map` returns under a device filter for a journey without
   * that device, removed by `filter(Boolean)`: the journey is kept when it has it.
   */
  function OnDevice(deviceFilter: string): Journey -> bool {
    (j: Journey) => deviceFilter == ALL || HasDevice(j.devices, deviceFilter)
  }

  /** The comparator `new Date(b.endTime) - new Date(a.endTime)`: newest first. */
  function NewestFirst(journey: Journey): real {
    -(journey.endTime as real)
  }

  /** `cutoffDate`: `now` minus the look-back in days. */
  function Cutoff(timeRange: string, now: int): int {
    now - DaysBack(timeRange) * DAY_MS
  }

  /**
   * `getJourneys`: the journeys of the conversions at or after the cutoff,
   * kept by the device filter, newest first. `draws(c)` are the draws for
   * conversion `c`'s touchpoints.
   */
  function Journeys(conversions: seq<Conversion>, deviceFilter: string, timeRange: string, now: int,
                    draws: Conversion -> nat -> real): seq<Journey>
  {
    var recent := Filter(conversions, Recent(Cutoff(timeRange, now)));
    SortAsc(Filter(MapSeq(recent, JourneyWith(draws)), OnDevice(deviceFilter)), NewestFirst)
  }

  /** The journeys are listed newest first. */
  lemma JourneysNewestFirst(conversions: seq<Conversion>, deviceFilter: string, timeRange: string, now: int,
                            draws: Conversion -> nat -> real)
    ensures var journeys := Journeys(conversions, deviceFilter, timeRange, now, draws);
      forall i, j :: 0 <= i < j < |journeys| ==> journeys[i].endTime >= journeys[j].endTime
  {
    var journeys := Journeys(conversions, deviceFilter, timeRange, now, draws);
    assert forall i, j :: 0 <= i < j < |journeys| ==> NewestFirst(journeys[i]) <= NewestFirst(journeys[j]);
  }

  /**
   * The journeys are exactly those of the conversions at or after the cutoff
   * that the device filter keeps.
   */
  lemma JourneysKept(conversions: seq<Conversion>, deviceFilter: string, timeRange: string, now: int,
                     draws: Conversion -> nat -> real)
    ensures forall j :: j in Journeys(conversions, deviceFilter, timeRange, now, draws) <==>
      OnDevice(deviceFilter)(j)
      && exists c :: c in conversions && Recent(Cutoff(timeRange, now))(c) && j == JourneyWith(draws)(c)
  {
    SortedImages(conversions, Recent(Cutoff(timeRange, now)), JourneyWith(draws), OnDevice(deviceFilter), NewestFirst);
  }

  /**
   * Every journey is marked converted, counts the touchpoints listed under
   * its devices, ends at or after the cutoff, and under a device filter
   * contains that device.
   */
  lemma JourneyFacts(conversions: seq<Conversion>, deviceFilter: string, timeRange: string, now: int,
                     draws: Conversion -> nat -> real, j: Journey)
    requires j in Journeys(conversions, deviceFilter, timeRange, now, draws)
    ensures j.isConverted
    ensures j.totalTouchpoints == SumOf(j.devices, Size)
    ensures j.endTime >= Cutoff(timeRange, now)
    ensures deviceFilter != ALL ==> HasDevice(j.devices, deviceFilter)
  {
    JourneysKept(conversions, deviceFilter, timeRange, now, draws);
    var c :| c in conversions && Recent(Cutoff(timeRange, now))(c) && j == JourneyWith(draws)(c);
    DevicesCover(c.touchpoints, draws(c));
  }

  function JourneyKey(j: Journey): int { j.Id }

  /** `getById`: the first journey of the last seven days with the id. */
  function JourneyById(conversions: seq<Conversion>, id: int, now: int, draws: Conversion -> nat -> real): (r: Result<Journey>)
    ensures var journeys := Journeys(conversions, ALL, "7d", now, draws);
      && (r.Failure? <==> forall i :: 0 <= i < |journeys| ==> journeys[i].Id != id)
      && (r.Failure? ==> r.message == "Journey not found")
      && (r.Success? ==> r.value in journeys && r.value.Id == id)
      && (r.Success? ==> exists i :: 0 <= i < |journeys| && journeys[i] == r.value
                          && forall j :: 0 <= j < i ==> journeys[j].Id != id)
  {
    Tables.Find(Journeys(conversions, ALL, "7d", now, draws), JourneyKey, id, "Journey not found")
  }

  /** `getByCustomer`: the journeys of the last seven days that belong to the customer. */
  function JourneysOfCustomer(conversions: seq<Conversion>, customerId: string, now: int,
                              draws: Conversion -> nat -> real): (r: seq<Journey>)
    ensures forall j :: j in r <==>
      j in Journeys(conversions, ALL, "7d", now, draws) && j.customerId == customerId
    ensures |r| <= |Journeys(conversions, ALL, "7d", now, draws)|
  {
    Filter(Journeys(conversions, ALL, "7d", now, draws), (j: Journey) => j.customerId == customerId)
  }

  /** The figures of `getDeviceMetrics` (its random growth figures are not modelled). */
  datatype Metrics = Metrics(
    crossDeviceConversions: nat,
    avgDevicesPerJourney: real,
    mobileToDesktopRate: real,
    crossDeviceRevenue: real)

  predicate IsCrossDevice(journey: Journey) {
    |journey.devices| > 1
  }

  predicate MobileToDesktop(journey: Journey) {
    HasDevice(journey.devices, MOBILE) && HasDevice(journey.devices, DESKTOP)
  }

  /** The revenues of some journeys, added up. */
  function JourneyRevenue(journeys: seq<Journey>): real {
    if journeys == [] then 0.0
    else JourneyRevenue(journeys[..|journeys| - 1]) + journeys[|journeys| - 1].revenue
  }

  /** The device counts of some journeys, added up. */
  function DeviceCount(journeys: seq<Journey>): nat {
    if journeys == [] then 0
    else DeviceCount(journeys[..|journeys| - 1]) + |journeys[|journeys| - 1].devices|
  }

  /**
   * The metrics of a list of journeys: the cross-device count and revenue,
   * the average number of devices and the share of cross-device journeys on
   * both mobile and desktop; the last two are 0 for no journeys.
   */
  function MetricsOf(journeys: seq<Journey>): (m: Metrics)
    ensures m.crossDeviceConversions <= |journeys|
    ensures |journeys| == 0 ==> m.avgDevicesPerJourney == 0.0 && m.mobileToDesktopRate == 0.0
    ensures m.avgDevicesPerJourney == Average(DeviceCount(journeys), |journeys|)
    ensures 0.0 <= m.mobileToDesktopRate <= 100.0
    ensures m.crossDeviceConversions == |Filter(journeys, IsCrossDevice)|
    ensures m.crossDeviceRevenue == JourneyRevenue(Filter(journeys, IsCrossDevice))
    ensures m.mobileToDesktopRate == Percent(|Filter(Filter(journeys, IsCrossDevice), MobileToDesktop)|, |journeys|)
  {
    var cross := Filter(journeys, IsCrossDevice);
    var mobileToDesktop := Filter(cross, MobileToDesktop);
    assert |mobileToDesktop| <= |cross| <= |journeys|;
    Metrics(|cross|, Average(DeviceCount(journeys), |journeys|), Percent(|mobileToDesktop|, |journeys|),
            JourneyRevenue(cross))
  }

  /** `total / count`, 0 for no items. */
  function Average(total: nat, count: nat): (a: real)
    ensures count == 0 ==> a == 0.0
    ensures count > 0 ==> a * count as real == total as real
  {
    if count == 0 then 0.0 else total as real / count as real
  }

  /** `part / whole * 100`, 0 for an empty whole. */
  function Percent(part: nat, whole: nat): (p: real)
    requires part <= whole
    ensures whole == 0 ==> p == 0.0
    ensures 0.0 <= p <= 100.0
    ensures whole > 0 ==> p * whole as real == part as real * 100.0
  {
    if whole == 0 then 0.0
    else
      Calculations.FractionBound(part as real, whole as real);
      (part as real / whole as real) * 100.0
  }

  /** `getDeviceMetrics`: the metrics of every journey in the time range. */
  function DeviceMetrics(conversions: seq<Conversion>, timeRange: string, now: int, draws: Conversion -> nat -> real): (m: Metrics)
    ensures var journeys := Journeys(conversions, ALL, timeRange, now, draws);
      && m.crossDeviceConversions == |Filter(journeys, IsCrossDevice)|
      && m.crossDeviceRevenue == JourneyRevenue(Filter(journeys, IsCrossDevice))
      && m.avgDevicesPerJourney == Average(DeviceCount(journeys), |journeys|)
      && m.mobileToDesktopRate == Percent(|Filter(Filter(journeys, IsCrossDevice), MobileToDesktop)|, |journeys|)
  {
    MetricsOf(Journeys(conversions, ALL, timeRange, now, draws))
  }

  /** With no negative revenue, keeping some journeys keeps at most their revenue. */
  lemma {:induction false} FilteredRevenueBound(journeys: seq<Journey>, p: Journey -> bool)
    requires forall j :: j in journeys ==> j.revenue >= 0.0
    ensures 0.0 <= JourneyRevenue(Filter(journeys, p)) <= JourneyRevenue(journeys)
  {
    if journeys != [] {
      var init, last := journeys[..|journeys| - 1], journeys[|journeys| - 1];
      assert journeys == init + [last];
      assert forall j :: j in init ==> j in journeys;
      FilteredRevenueBound(init, p);
      var kept := Filter(init, p);
      if p(last) {
        assert Filter(journeys, p) == kept + [last];
        assert (kept + [last])[..|kept|] == kept;
      } else {
        assert Filter(journeys, p) == kept;
      }
    }
  }

  /**
   * Cross-device revenue is at most the revenue of all journeys when no
   * revenue is negative; the cross-device count is that of the journeys with
   * more than one device.
   */
  lemma CrossDeviceMetrics(journeys: seq<Journey>)
    requires forall j :: j in journeys ==> j.revenue >= 0.0
    ensures 0.0 <= MetricsOf(journeys).crossDeviceRevenue <= JourneyRevenue(journeys)
    ensures MetricsOf(journeys).crossDeviceConversions == |Filter(journeys, IsCrossDevice)|
  {
    FilteredRevenueBound(journeys, IsCrossDevice);
  }

  /** The transition key `from->to`. */
  function TransitionKey(from: string, to: string): string {
    from + "->" + to
  }

  /** The keys of the first `k` adjacent device pairs of a journey. */
  function PairKeys(devices: seq<Device>, k: nat): (keys: seq<string>)
    requires k == 0 || k < |devices|
    ensures |keys| == k
  {
    if k == 0 then []
    else PairKeys(devices, k - 1) + [TransitionKey(devices[k - 1].deviceType, devices[k].deviceType)]
  }

  /** The keys of all adjacent device pairs of a journey. */
  function JourneyKeys(journey: Journey): (keys: seq<string>)
    ensures |keys| == if |journey.devices| == 0 then 0 else |journey.devices| - 1
  {
    PairKeys(journey.devices, if |journey.devices| == 0 then 0 else |journey.devices| - 1)
  }

  /** Every transition key, journey by journey, in loop order. */
  function TransitionKeys(journeys: seq<Journey>): seq<string> {
    if journeys == [] then []
    else TransitionKeys(journeys[..|journeys| - 1]) + JourneyKeys(journeys[|journeys| - 1])
  }

  /** `transitions.set(key, (transitions.get(key) || 0) + 1)`. */
  function Bump(transitions: map<string, nat>, key: string): map<string, nat> {
    transitions[key := (if key in transitions then transitions[key] else 0) + 1]
  }

  /** The map after bumping each of `keys` in turn. */
  function BumpAll(transitions: map<string, nat>, keys: seq<string>): map<string, nat> {
    if keys == [] then transitions else Bump(BumpAll(transitions, keys[..|keys| - 1]), keys[|keys| - 1])
  }

  /** `transitions` counts the occurrences of each key in `keys`, and holds no other key. */
  ghost predicate Tallies(transitions: map<string, nat>, keys: seq<string>) {
    && (forall key :: key in transitions <==> key in keys)
    && (forall key :: key in transitions ==> transitions[key] == Count(keys, key))
  }

  lemma {:induction false} BumpAllTallies(transitions: map<string, nat>, keys: seq<string>, more: seq<string>)
    requires Tallies(transitions, keys)
    ensures Tallies(BumpAll(transitions, more), keys + more)
  {
    if more == [] {
      assert keys + more == keys;
    } else {
      var init, key := more[..|more| - 1], more[|more| - 1];
      BumpAllTallies(transitions, keys, init);
      var before := BumpAll(transitions, init);
      var after := BumpAll(transitions, more);
      assert after == Bump(before, key);
      assert keys + more == (keys + init) + [key];
      forall k | k in after ensures after[k] == Count(keys + more, k) {
        CountSnoc(keys + init, key, k);
      }
      forall k ensures k in after <==> k in keys + more {
        assert k in keys + more <==> k in keys + init || k == key;
      }
    }
  }

  lemma {:induction false} BumpAllAppend(transitions: map<string, nat>, a: seq<string>, b: seq<string>)
    ensures BumpAll(transitions, a + b) == BumpAll(BumpAll(transitions, a), b)
  {
    if b == [] {
      assert a + b == a;
    } else {
      BumpAllAppend(transitions, a, b[..|b| - 1]);
      assert (a + b)[..|a + b| - 1] == a + b[..|b| - 1];
    }
  }

  /** The body of the `forEach` callback: counts each adjacent device pair of one journey. */
  method CountTransitions(transitions: map<string, nat>, journey: Journey) returns (transitions': map<string, nat>)
    ensures transitions' == BumpAll(transitions, JourneyKeys(journey))
  {
    transitions' := transitions;
    var i := 0;
    while i < |journey.devices| - 1
      invariant 0 <= i <= if |journey.devices| == 0 then 0 else |journey.devices| - 1
      invariant transitions' == BumpAll(transitions, PairKeys(journey.devices, i))
    {
      var from := journey.devices[i].deviceType;
      var to := journey.devices[i + 1].deviceType;
      var key := TransitionKey(from, to);
      transitions' := Bump(transitions', key);
      i := i + 1;
    }
  }

  /** The loop of `getDeviceTransitionFlow`, over a list of journeys. */
  method TransitionFlow(journeys: seq<Journey>) returns (transitions: map<string, nat>)
    ensures transitions == BumpAll(map[], TransitionKeys(journeys))
  {
    transitions := map[];
    for i := 0 to |journeys|
      invariant transitions == BumpAll(map[], TransitionKeys(journeys[..i]))
    {
      assert journeys[..i + 1][..i] == journeys[..i];
      BumpAllAppend(map[], TransitionKeys(journeys[..i]), JourneyKeys(journeys[i]));
      transitions := CountTransitions(transitions, journeys[i]);
    }
    assert journeys[..|journeys|] == journeys;
  }

  /** `getDeviceTransitionFlow`: the transitions of every journey in the time range. */
  method DeviceTransitionFlow(conversions: seq<Conversion>, timeRange: string, now: int, draws: Conversion -> nat -> real)
    returns (transitions: map<string, nat>)
    ensures transitions == BumpAll(map[], TransitionKeys(Journeys(conversions, ALL, timeRange, now, draws)))
  {
    transitions := TransitionFlow(Journeys(conversions, ALL, timeRange, now, draws));
  }

  /** The number of adjacent device pairs over some journeys. */
  function PairCount(journeys: seq<Journey>): nat {
    if journeys == [] then 0
    else
      var devices := journeys[|journeys| - 1].devices;
      PairCount(journeys[..|journeys| - 1]) + if |devices| == 0 then 0 else |devices| - 1
  }

  lemma {:induction false} TransitionKeysLength(journeys: seq<Journey>)
    ensures |TransitionKeys(journeys)| == PairCount(journeys)
  {
    if journeys != [] {
      TransitionKeysLength(journeys[..|journeys| - 1]);
    }
  }

  /** The counts of `transitions` over the keys `keys`, added up. */
  function CountSum(transitions: map<string, nat>, keys: seq<string>): nat {
    if keys == [] then 0
    else
      var key := keys[|keys| - 1];
      CountSum(transitions, keys[..|keys| - 1]) + if key in transitions then transitions[key] else 0
  }

  lemma {:induction false} CountSumTallies(transitions: map<string, nat>, all: seq<string>, keys: seq<string>)
    requires Tallies(transitions, all)
    requires forall key :: key in keys ==> key in all
    ensures CountSum(transitions, keys) == SumCounts(keys, all)
  {
    if keys != [] {
      CountSumTallies(transitions, all, keys[..|keys| - 1]);
    }
  }

  /**
   * Each transition key counts its occurrences, and over all keys the counts
   * add up to the number of adjacent device pairs of the journeys.
   */
  lemma TransitionCounts(journeys: seq<Journey>)
    ensures var keys := TransitionKeys(journeys);
      var transitions := BumpAll(map[], keys);
      && (forall key :: key in transitions <==> key in keys)
      && (forall key :: key in transitions ==> transitions[key] == Count(keys, key))
      && CountSum(transitions, Distinct(keys)) == PairCount(journeys)
  {
    var keys := TransitionKeys(journeys);
    assert [] + keys == keys;
    BumpAllTallies(map[], [], keys);
    CountSumTallies(BumpAll(map[], keys), keys, Distinct(keys));
    CountsPartition(keys);
    TransitionKeysLength(journeys);
  }
}
