# Marketing attribution dashboard — a verified model of its core

This project models the logic behind a marketing-analytics dashboard. The
dashboard credits each sale (a *conversion*) to the advertising channels a
customer touched before buying (its *touchpoints*), and it derives
cross-device journeys from the same data. Around that sit three in-memory
record stores and the small state machines of the pages. The model follows
the source file by file:

- `Calculations`: the zero-guarded ratio helpers (ROAS, CPA, CTR,
  conversion rate, margin) and `attributeConversion`. That function splits
  one unit of credit across the touchpoints of a conversion under the
  first-touch, last-touch, linear or time-decay model; an unknown model
  falls to linear, and an omitted model means last-touch. The loop that
  fills the per-channel map is a method. It is proved equal to a
  pure function that sums per-touchpoint credits. Lemmas show the credits
  sum to 1, each lies in [0, 1], and each model puts the credit where it
  promises.
- `AttributionFlowChart`: `calculateAttribution`. It runs the same switch
  but with no default branch, so an unknown model hands out nothing. It
  keys entries by channel name ("Unknown" for ids with no channel),
  accumulates revenue × credit and credit, rounds, and sorts by revenue,
  highest first. It also covers the percentage share of each row. The
  nested loops are methods proved against a pure fold. Their totals are
  tied to the number of conversions with touchpoints and to those
  conversions' revenue.
- `CrossDevice`: the cross-device service.
  - Device inference from the interaction name.
  - Grouping of touchpoints into per-device entries in first-seen order, then
    sorted by first interaction.
  - The journey list: time window, device filter, newest first.
  - The lookups by id and by customer, and the journey metrics.
  - The device-to-device transition counts.
- `ConversionStore`, `CampaignStore`, `ChannelStore` (shared parts in
  `Tables`): classes over a `seq` of records. `create` appends under the
  largest id + 1, `update` merges a patch, and `delete` splices. Each fails
  with its "… not found" message and changes nothing when the id is
  absent. The order-keeping filters live here too.
- `CampaignTable`, `Campaigns`, `FilterSelect`, `ConversionTrendChart`,
  `Dashboard`, `Reports`, `Settings`: the page logic. This covers the sort
  toggle and the filter/sort pipeline, the campaign filter, ROAS/CPA
  guards, colours, badges and status changes, and multi-select toggling.
  It also covers grouping conversions by day and keeping the latest 30
  days, the dashboard totals, report creation/run/pause, and integration
  connect/disconnect/sync with the notification switches.
- `Results`, `Seqs`, `Text`, `Records`: Option/Result, sequence helpers (a
  stable insertion sort, filters, per-key sums), text helpers, and the
  record types shared by the modules.

Modelling conventions:

- Money, credits and ratios are `real`, so "sums to 1" is exact.
- Timestamps are integer milliseconds.
- The current time and the random draws are parameters.
- A record field the caller may leave out is an `Option`.

## Model

| member | source | states |
|---|---|---|
| Calculations.CalculateRoas | src/utils/calculations.js:1-4 | 0 when spend is 0, otherwise the r with r × spend = revenue |
| Calculations.CalculateCpa | src/utils/calculations.js:6-9 | 0 when conversions is 0, otherwise the r with r × conversions = spend |
| Calculations.CalculateCtr | src/utils/calculations.js:11-14 | 0 when impressions is 0, otherwise clicks/impressions scaled by 100 |
| Calculations.CalculateConversionRate | src/utils/calculations.js:16-19 | 0 when clicks is 0, otherwise conversions/clicks scaled by 100 |
| Calculations.RevenuePerConversion | src/utils/calculations.js:21-23 | revenue built from an average order value gives back that value as its per-conversion figure (CPA of the revenue) |
| Calculations.CalculateMargin | src/utils/calculations.js:25-28 | 0 when revenue is 0, otherwise (revenue − costs)/revenue scaled by 100 |
| Calculations.ModelOf | src/utils/calculations.js:43-61 | the switch's case for a model id: each of the four named cases exactly for its own id, the default for any other |
| Calculations.Credit | src/utils/calculations.js:43-61 | every branch's credit for one touchpoint lies in [0, 1] |
| Calculations.TotalWeight | src/utils/calculations.js:55-56 | the sum of the first k time-decay weights: positive when k > 0, 0 when k = 0 |
| Calculations.TotalWeightMonotone | src/utils/calculations.js:55-56 | summing more time-decay weights never gives less |
| Calculations.TimeDecayBound | src/utils/calculations.js:53-58 | each time-decay weight is positive and at most the sum of all weights |
| Calculations.ChannelIds | src/utils/calculations.js:35-36 | the channel id of each touchpoint, in order |
| Calculations.CreditPairsAt | src/utils/calculations.js:35-63 | the i-th credit handed out goes to touchpoint i's channel and is the switch's credit for index i |
| Calculations.CreditPairsKeys | src/utils/calculations.js:35-39 | the channels credited are the touchpoints' channels, in order |
| Calculations.SumsOfAllCredits | src/utils/calculations.js:35-39 | a map holding the per-channel sums has exactly the touchpoints' channel ids as keys, even those credited 0, each holding its channel's credit |
| Calculations.CreditTouchpoint | src/utils/calculations.js:37-63 | one loop step: a new channel starts at 0, then the credit is added to it |
| Calculations.CreditPairsStep | src/utils/calculations.js:35-64 | one loop step keeps the map equal to the sums of the credits handed out so far |
| Calculations.AttributeConversion | src/utils/calculations.js:30-67 | no touchpoints gives the empty map; otherwise the keys are exactly the distinct channel ids and each value is that channel's summed credit under the model, last-touch when omitted |
| Calculations.FirstTouchTotal | src/utils/calculations.js:44-46 | first-touch hands out exactly 1 over any non-empty prefix |
| Calculations.LastTouchTotal | src/utils/calculations.js:47-49 | last-touch hands out nothing before the last touchpoint |
| Calculations.LinearTotal | src/utils/calculations.js:50-52 | linear (and the default branch) hands out k/N over the first k touchpoints |
| Calculations.TimeDecayTotal | src/utils/calculations.js:53-58 | time-decay hands out the first k weights over the total weight |
| Calculations.CreditsSumToOne | src/utils/calculations.js:43-63 | for every model, named or not, the credits of N ≥ 1 touchpoints sum to exactly 1 |
| Calculations.CreditPairsTotal | src/utils/calculations.js:43-63 | the credits handed out over k touchpoints add up to the model's total for k |
| Calculations.ChannelCreditsSumToOne | src/utils/calculations.js:35-64 | the values of the attribution map, one per distinct channel, sum to 1 |
| Calculations.ChannelCreditBounds | src/utils/calculations.js:43-63 | each channel's credit lies in [0, 1] |
| Calculations.FirstTouchPrefix | src/utils/calculations.js:44-46 | over any non-empty prefix, first-touch credits 1 to touchpoint 0's channel and 0 to every other |
| Calculations.FirstTouchCredit | src/utils/calculations.js:44-46 | first-touch gives touchpoint 0's channel 1 and every other channel 0 |
| Calculations.LastTouchPrefix | src/utils/calculations.js:47-49 | before the last touchpoint, last-touch has credited no channel |
| Calculations.LastTouchCredit | src/utils/calculations.js:47-49 | last-touch gives touchpoint N−1's channel 1 and every other channel 0 |
| Calculations.LinearPrefix | src/utils/calculations.js:50-52 | over a prefix, linear credits a channel its occurrences in the prefix divided by N |
| Calculations.LinearCredit | src/utils/calculations.js:50-52 | linear gives a channel (its occurrences)/N |
| Calculations.UnknownModelIsLinear | src/utils/calculations.js:59-60 | an unrecognised model credits every channel exactly as linear does |
| Calculations.TimeDecayHalving | src/utils/calculations.js:53-58 | each time-decay credit is half the next one |
| Calculations.TimeDecayLastLargest | src/utils/calculations.js:53-58 | the last touchpoint gets the largest time-decay credit |
| Calculations.TimeDecayTwoTouchpoints | src/utils/calculations.js:53-58 | with two touchpoints, time-decay gives 1/3 and 2/3 |
| Records.ChannelNameFirstMatch | src/components/organisms/AttributionFlowChart.jsx:48-51 | the name of the first channel with the id, "Unknown" when none has it (the same lookup as src/components/organisms/CampaignTable.jsx:45-48) |
| AttributionFlowChart.SwitchesAgree | src/components/organisms/AttributionFlowChart.jsx:70-86 | on the four named models the chart's switch equals the engine's; on any other model the chart gives 0 where the engine gives 1/N |
| AttributionFlowChart.Round | src/components/organisms/AttributionFlowChart.jsx:96 | `Math.round`: the integer within half a unit, halves rounded up |
| AttributionFlowChart.RoundTenth | src/components/organisms/AttributionFlowChart.jsx:97 | the nearest tenth: a whole number of tenths, within 0.05 of the input |
| AttributionFlowChart.Rows | src/components/organisms/AttributionFlowChart.jsx:93-98 | one row per distinct channel name |
| AttributionFlowChart.Report | src/components/organisms/AttributionFlowChart.jsx:93-99 | the sorted rows are a permutation of the per-name rows, and their revenue is non-increasing |
| AttributionFlowChart.EntryAfterStep | src/components/organisms/AttributionFlowChart.jsx:64-89 | after one step, the entry of each name holds the sums of its revenue and credit pairs |
| AttributionFlowChart.CreditStep | src/components/organisms/AttributionFlowChart.jsx:62-89 | one inner step keeps every entry equal to the sums of the pairs so far, with new names last in key order |
| AttributionFlowChart.CreditTouchpoint | src/components/organisms/AttributionFlowChart.jsx:63-89 | the inner callback: create the entry at 0 if absent, then add revenue × credit and credit |
| AttributionFlowChart.TouchpointStep | src/components/organisms/AttributionFlowChart.jsx:62-90 | the inner loop's invariant is kept by one touchpoint |
| AttributionFlowChart.CreditedStep | src/components/organisms/AttributionFlowChart.jsx:62-90 | the fold over k + 1 touchpoints is one more callback step |
| AttributionFlowChart.CreditedAccumulated | src/components/organisms/AttributionFlowChart.jsx:62-90 | after a conversion's touchpoints, each name holds the sums of all pairs so far |
| AttributionFlowChart.CreditConversion | src/components/organisms/AttributionFlowChart.jsx:56-90 | the inner loop over one conversion equals the pure fold `Credited` |
| AttributionFlowChart.AttributedAccumulated | src/components/organisms/AttributionFlowChart.jsx:56-91 | after all conversions, each name holds its summed revenue × credit and credit |
| AttributionFlowChart.AccumulatedEntries | src/components/organisms/AttributionFlowChart.jsx:93-98 | the entries in key order are the rounded rows of those sums |
| AttributionFlowChart.CalculateAttribution | src/components/organisms/AttributionFlowChart.jsx:53-100 | the method returns exactly `Report`: the rows permuted and sorted by revenue, highest first |
| AttributionFlowChart.ConversionCreditsTotal | src/components/organisms/AttributionFlowChart.jsx:68-89 | a conversion's credits add up to the engine's total for a named model and to 0 for any other |
| AttributionFlowChart.ConversionCreditsOne | src/components/organisms/AttributionFlowChart.jsx:57-89 | under a named model a conversion contributes credit 1 when it has touchpoints and 0 otherwise |
| AttributionFlowChart.CreditFlowTotal | src/components/organisms/AttributionFlowChart.jsx:56-91 | under a named model all credits sum to the number of conversions with at least one touchpoint |
| AttributionFlowChart.RevenueFlowTotal | src/components/organisms/AttributionFlowChart.jsx:56-91 | under a named model all attributed revenue sums to the revenue of the conversions with touchpoints |
| AttributionFlowChart.EntrySums | src/components/organisms/AttributionFlowChart.jsx:88-89 | summing entries by name is summing the pairs group by group |
| AttributionFlowChart.AttributedTotals | src/components/organisms/AttributionFlowChart.jsx:53-91 | the unrounded entries add up to the count and the revenue of the conversions with touchpoints |
| AttributionFlowChart.UnknownModelConversionZero | src/components/organisms/AttributionFlowChart.jsx:68-86 | with no default branch an unknown model credits no name |
| AttributionFlowChart.UnknownModelFlowZero | src/components/organisms/AttributionFlowChart.jsx:68-89 | under an unknown model every name's revenue and credit sums are 0 |
| AttributionFlowChart.UnknownModelReport | src/components/organisms/AttributionFlowChart.jsx:53-99 | under an unknown model every row has revenue 0 and conversions 0 |
| AttributionFlowChart.FirstTouchConversion | src/components/organisms/AttributionFlowChart.jsx:71-73 | first-touch credits 1 to the name of the first touchpoint's channel |
| AttributionFlowChart.LastTouchConversion | src/components/organisms/AttributionFlowChart.jsx:74-76 | last-touch credits 1 to the name of the last touchpoint's channel once all touchpoints are seen |
| AttributionFlowChart.FlowStep | src/components/organisms/AttributionFlowChart.jsx:56-91 | per-name counts and revenue extend by one conversion |
| AttributionFlowChart.FirstTouchEntry | src/components/organisms/AttributionFlowChart.jsx:56-91 | under first-touch a name's conversions and revenue are those of the conversions whose first touchpoint is on it |
| AttributionFlowChart.LastTouchEntry | src/components/organisms/AttributionFlowChart.jsx:56-91 | under last-touch a name's conversions and revenue are those of the conversions whose last touchpoint is on it |
| AttributionFlowChart.Share | src/components/organisms/AttributionFlowChart.jsx:137 | 0 when the total is not positive, otherwise the row's revenue as a percentage of the total |
| AttributionFlowChart.SharesScale | src/components/organisms/AttributionFlowChart.jsx:106-137 | the shares times the total give 100 times the total revenue |
| AttributionFlowChart.SharesSumTo100 | src/components/organisms/AttributionFlowChart.jsx:106-137 | with a positive total, the shares of all rows sum to exactly 100 |
| CrossDevice.KnownDevice | src/services/api/crossDeviceService.js:110-120 | mobile exactly for app_install/push_notification/sms_click, desktop exactly for email_click/form_submit/download, tablet exactly for video_view/social_share, none otherwise |
| CrossDevice.DrawDevice | src/services/api/crossDeviceService.js:122-132 | the weight-subtracting loop returns the device of the cumulative weight band the draw falls in, desktop past the end |
| CrossDevice.DeviceInference | src/services/api/crossDeviceService.js:108-133 | known interactions give the same device whatever the draw, and every answer is one of the five devices |
| CrossDevice.InferDeviceType | src/services/api/crossDeviceService.js:108-133 | the known device, or the draw's device for any other interaction |
| CrossDevice.ServiceChannelName | src/services/api/crossDeviceService.js:135-147 | a named channel exactly for ids 1 to 8, "Unknown" otherwise |
| CrossDevice.DeviceTypes | src/services/api/crossDeviceService.js:81-83 | one inferred device per touchpoint |
| CrossDevice.Bucket | src/services/api/crossDeviceService.js:94-100 | a device's list holds one touchpoint per touchpoint inferred on it |
| CrossDevice.Entries | src/services/api/crossDeviceService.js:81-101 | one entry per distinct inferred device |
| CrossDevice.DevicesSorted | src/services/api/crossDeviceService.js:103-105 | one device per distinct type, sorted ascending by first interaction |
| CrossDevice.PlaceKeys | src/services/api/crossDeviceService.js:85-92 | the map's keys and its insertion order stay the same set |
| CrossDevice.PlaceOrderStep | src/services/api/crossDeviceService.js:85-92 | the insertion order is the inferred devices in first-seen order |
| CrossDevice.PlaceEntry | src/services/api/crossDeviceService.js:85-100 | after a step each entry has its device's touchpoints in input order, the first one's timestamp as firstInteraction and the last one's as lastInteraction |
| CrossDevice.PlaceStep | src/services/api/crossDeviceService.js:81-101 | one callback step keeps the map equal to the grouping of the touchpoints seen so far |
| CrossDevice.GroupedEntries | src/services/api/crossDeviceService.js:81-101 | the fold over the touchpoints yields that grouping |
| CrossDevice.Values | src/services/api/crossDeviceService.js:103 | `Array.from(deviceMap.values())`: the entries in insertion order |
| CrossDevice.GroupedValues | src/services/api/crossDeviceService.js:103 | the map's values in insertion order are `Entries`, one grouping per device in first-seen order |
| CrossDevice.PlaceTouchpoint | src/services/api/crossDeviceService.js:83-100 | the forEach callback: create the entry if absent, set lastInteraction, push the touchpoint |
| CrossDevice.GroupedNext | src/services/api/crossDeviceService.js:81-101 | the fold over k + 1 touchpoints is one more callback step |
| CrossDevice.GroupTouchpoints | src/services/api/crossDeviceService.js:79-101 | the loop equals the pure fold `Grouped` |
| CrossDevice.ExtractDevices | src/services/api/crossDeviceService.js:78-106 | `extractDevicesFromTouchpoints` returns exactly `Devices`: the groupings sorted by first interaction |
| CrossDevice.SizeOfEntries | src/services/api/crossDeviceService.js:94-100 | the devices' list sizes count the touchpoints inferred on each |
| CrossDevice.DevicesCover | src/services/api/crossDeviceService.js:81-101 | the devices' touchpoint lists partition the input: their sizes sum to N |
| CrossDevice.DevicesDistinct | src/services/api/crossDeviceService.js:85-92 | no device type appears twice |
| CrossDevice.EntryAt | src/services/api/crossDeviceService.js:81-101 | the i-th entry is the grouping of the i-th device first seen |
| CrossDevice.EntriesMembers | src/services/api/crossDeviceService.js:81-101 | the entries are exactly the groupings of the inferred devices |
| CrossDevice.DevicesEntries | src/services/api/crossDeviceService.js:85-105 | the sorted devices are exactly the groupings of the inferred devices, each with its first and last timestamps |
| CrossDevice.DaysBack | src/services/api/crossDeviceService.js:7-11 | 30 and 90 for "30d" and "90d", 7 for "7d" and any other range that is not an Object.prototype property name |
| CrossDevice.JourneysNewestFirst | src/services/api/crossDeviceService.js:43 | journeys are ordered by end time, newest first |
| CrossDevice.JourneysKept | src/services/api/crossDeviceService.js:17-42 | a journey is listed iff it is the journey of a conversion at or after the cutoff and, under a device filter, has that device |
| CrossDevice.JourneyFacts | src/services/api/crossDeviceService.js:26-40 | every listed journey is converted, counts all its touchpoints (the devices' list sizes), ends at or after the cutoff, and has the filtered device |
| CrossDevice.JourneyById | src/services/api/crossDeviceService.js:149-157 | the first journey of the default window with the id, or "Journey not found" exactly when none has it |
| CrossDevice.JourneysOfCustomer | src/services/api/crossDeviceService.js:159-163 | exactly the default window's journeys of that customer |
| CrossDevice.MetricsOf | src/services/api/crossDeviceService.js:53-75 | cross-device count at most the journey count; the average is the devices per journey (0 with no journeys); the cross-device count is the number of journeys on more than one device and the cross-device revenue is those journeys' revenue; the mobile→desktop rate is the Percent of the cross-device journeys that go mobile→desktop over all journeys, 0 with no journeys and always within [0, 100] |
| CrossDevice.Average | src/services/api/crossDeviceService.js:62-64 | 0 with no journeys, otherwise total/count |
| CrossDevice.DeviceMetrics | src/services/api/crossDeviceService.js:48-75 | the metrics of all journeys in the time range: the cross-device count and revenue, the devices per journey and the mobile→desktop rate over those journeys |
| CrossDevice.Percent | src/services/api/crossDeviceService.js:71 | 0 when the whole is 0, otherwise the p with p × whole = part × 100; always within [0, 100] |
| CrossDevice.FilteredRevenueBound | src/services/api/crossDeviceService.js:54-55 | with non-negative revenues the revenue of a filtered list is between 0 and the total |
| CrossDevice.CrossDeviceMetrics | src/services/api/crossDeviceService.js:53-73 | cross-device conversions are the journeys with more than one device, and their revenue is at most the total revenue |
| CrossDevice.PairKeys | src/services/api/crossDeviceService.js:172-176 | one "from->to" key per adjacent pair considered |
| CrossDevice.JourneyKeys | src/services/api/crossDeviceService.js:172-176 | a journey with d devices has d − 1 transitions (none without devices) |
| CrossDevice.BumpAllTallies | src/services/api/crossDeviceService.js:177 | counting more keys keeps the map equal to each key's count, holding no other key |
| CrossDevice.BumpAllAppend | src/services/api/crossDeviceService.js:171-179 | counting two key lists in turn is counting their concatenation |
| CrossDevice.CountTransitions | src/services/api/crossDeviceService.js:172-178 | the inner loop counts the journey's adjacent pairs |
| CrossDevice.TransitionFlow | src/services/api/crossDeviceService.js:171-179 | the outer loop counts the adjacent pairs of all journeys |
| CrossDevice.DeviceTransitionFlow | src/services/api/crossDeviceService.js:165-182 | the counts over all journeys of the window |
| CrossDevice.TransitionKeysLength | src/services/api/crossDeviceService.js:171-179 | there are Σ(devices − 1) transition keys |
| CrossDevice.CountSumTallies | src/services/api/crossDeviceService.js:177 | summing the map's counts is summing the key occurrences |
| CrossDevice.TransitionCounts | src/services/api/crossDeviceService.js:165-181 | the keys are exactly the transitions seen, each counted by its occurrences, and the counts sum to Σ(devices − 1) over journeys |
| Seqs.FilterOrder | src/services/api/conversionService.js:53 | every filter keeps its kept records in their store order |
| Seqs.SortAscStable | src/components/organisms/AttributionFlowChart.jsx:99 | the sort is stable: the rows sharing a key come out in their input order |
| Tables.NextId | src/services/api/conversionService.js:20-22 | on a non-empty table the id is one more than the largest, so it is fresh |
| Tables.Find | src/services/api/conversionService.js:9-16 | the first record with the id, or the not-found message exactly when none has it |
| Tables.RemoveAt | src/services/api/conversionService.js:47 | `splice(index, 1)`: one record fewer, the others in their order, the removed one the only difference |
| Tables.FindAppended | src/services/api/conversionService.js:18-28 | a record appended under a fresh id is found by it |
| Tables.FindReplaced | src/services/api/conversionService.js:31-38 | a record written over the first one with its id, keeping it, is found by it |
| Tables.FindRemoved | src/services/api/conversionService.js:41-48 | with unique ids a removed record's id is no longer found |
| Tables.UpdateWhere | src/components/pages/Reports.jsx:99-103 | `map(r => r.Id === id ? change(r) : r)`: the records with the id changed, every other record and the order kept |
| Tables.UpdateWhereAbsent | src/components/pages/Reports.jsx:99-103 | with no record under the id nothing changes |
| Tables.UpdateWhereTwice | src/components/pages/Settings.jsx:103-117 | a key-keeping change keeps every id in place, and two updates of an id are one update by the composed change |
| ConversionStore.NewConversionDefaults | src/services/api/conversionService.js:21-26 | timestamp defaults to now, touchpoints to none, the id to max + 1 |
| ConversionStore.MergeLaws | src/services/api/conversionService.js:37 | an empty patch changes nothing; merging a patch twice is merging it once |
| ConversionStore.ConversionService.constructor | src/services/api/conversionService.js:1 | the table starts as the supplied data |
| ConversionStore.ConversionService.GetAll | src/services/api/conversionService.js:4-7 | the same records in the same order |
| ConversionStore.ConversionService.GetById | src/services/api/conversionService.js:9-16 | the first conversion of the table with that id, or "Conversion not found" exactly when none has it |
| ConversionStore.ConversionService.Create | src/services/api/conversionService.js:18-29 | on a non-empty table, appends the new conversion (id max + 1 unless given) and returns it |
| ConversionStore.ConversionService.Update | src/services/api/conversionService.js:31-39 | absent id: fails, table unchanged; otherwise only the first match is merged with the patch, size and other records kept |
| ConversionStore.ConversionService.Delete | src/services/api/conversionService.js:41-49 | absent id: fails, table unchanged; otherwise removes and returns exactly the first match, the rest in order |
| ConversionStore.ConversionService.ByCustomer | src/services/api/conversionService.js:51-54 | exactly the conversions with that customer id |
| ConversionStore.ConversionService.ByDateRange | src/services/api/conversionService.js:56-64 | exactly the conversions from start to end, both ends included |
| ConversionStore.ConversionService.ByChannel | src/services/api/conversionService.js:66-71 | exactly the conversions with at least one touchpoint on the channel |
| ConversionStore.CreateThenGet | src/services/api/conversionService.js:18-29 | a created conversion is found by its new id |
| ConversionStore.UpdateThenGet | src/services/api/conversionService.js:31-39 | after an update that keeps the id, the lookup returns the merged conversion |
| ConversionStore.DeleteThenGet | src/services/api/conversionService.js:41-49 | with unique ids a deleted conversion is no longer found |
| CampaignStore.NewCampaignDefaults | src/services/api/campaignService.js:21-30 | a campaign created from the form alone has id max + 1, the form's fields, and 0 conversions, revenue, spend, impressions, clicks and ctr |
| CampaignStore.MergeLaws | src/services/api/campaignService.js:41 | a status patch changes only the status; merging twice is merging once |
| CampaignStore.CampaignService.constructor | src/services/api/campaignService.js:1 | the table starts as the supplied data |
| CampaignStore.CampaignService.GetAll | src/services/api/campaignService.js:4-7 | the same records in the same order |
| CampaignStore.CampaignService.GetById | src/services/api/campaignService.js:9-16 | the first campaign with that id, or "Campaign not found" exactly when none has it |
| CampaignStore.CampaignService.Create | src/services/api/campaignService.js:18-33 | on a non-empty table, appends the new campaign (id max + 1 unless given) and returns it |
| CampaignStore.CampaignService.Update | src/services/api/campaignService.js:35-43 | absent id: fails, table unchanged; otherwise only the first match is merged |
| CampaignStore.CampaignService.Delete | src/services/api/campaignService.js:45-53 | absent id: fails, table unchanged; otherwise removes and returns exactly the first match |
| CampaignStore.CampaignService.ByChannel | src/services/api/campaignService.js:55-58 | exactly the campaigns on that channel |
| CampaignStore.CampaignService.ByStatus | src/services/api/campaignService.js:60-63 | exactly the campaigns with that status |
| CampaignStore.CreateThenGet | src/services/api/campaignService.js:18-33 | a created campaign is found by its new id |
| CampaignStore.StatusChangeThenGet | src/services/api/campaignService.js:35-43 | after a status update the lookup returns the campaign with the new status |
| ChannelStore.NewChannelDefaults | src/services/api/channelService.js:21-28 | a channel created with a name alone has id max + 1 and 0 spend, conversions, revenue and roas |
| ChannelStore.MergeLaws | src/services/api/channelService.js:39 | an empty patch changes nothing; merging twice is merging once |
| ChannelStore.ChannelService.constructor | src/services/api/channelService.js:1 | the table starts as the supplied data |
| ChannelStore.ChannelService.GetAll | src/services/api/channelService.js:4-7 | the same records in the same order |
| ChannelStore.ChannelService.GetById | src/services/api/channelService.js:9-16 | the first channel with that id, or "Channel not found" exactly when none has it |
| ChannelStore.ChannelService.Create | src/services/api/channelService.js:18-31 | on a non-empty table, appends the new channel (id max + 1 unless given) and returns it |
| ChannelStore.ChannelService.Update | src/services/api/channelService.js:33-41 | absent id: fails, table unchanged; otherwise only the first match is merged, size kept |
| ChannelStore.ChannelService.Delete | src/services/api/channelService.js:43-51 | absent id: fails, table unchanged; otherwise removes exactly the first match, the rest in order |
| ChannelStore.CreateThenGet | src/services/api/channelService.js:18-31 | a created channel is found by its new id |
| ChannelStore.DeleteThenGet | src/services/api/channelService.js:43-51 | with unique ids a deleted channel is no longer found |
| CampaignTable.NextSort | src/components/organisms/CampaignTable.jsx:59-66 | the clicked field becomes the sort field; the same field flips the direction, another field resets it to descending |
| CampaignTable.SortClickedTwice | src/components/organisms/CampaignTable.jsx:59-66 | two clicks on the current field restore the sort; two on another field sort it ascending |
| CampaignTable.SearchIgnoresCase | src/components/organisms/CampaignTable.jsx:69-71 | the search gives the same answer for a term and its lower-cased form |
| CampaignTable.FilteredAndSortedRows | src/components/organisms/CampaignTable.jsx:68-78 | the rows are exactly the campaigns whose name or channel name contains the term, each as often as in the table, ordered ascending or descending by the sort field |
| CampaignTable.EmptySearchShowsAll | src/components/organisms/CampaignTable.jsx:69-72 | an empty search keeps every campaign |
| CampaignTable.Roas | src/components/organisms/CampaignTable.jsx:158 | revenue/budget with a positive budget, else 0 (the same guard as src/components/pages/Campaigns.jsx:156) |
| CampaignTable.CampaignTableView.constructor | src/components/organisms/CampaignTable.jsx:19-21 | empty search, sorted by revenue descending |
| CampaignTable.CampaignTableView.HandleSort | src/components/organisms/CampaignTable.jsx:59-66 | only the sort state changes, to the next sort |
| CampaignTable.CampaignTableView.Search | src/components/organisms/CampaignTable.jsx:19 | only the search term changes |
| CampaignTable.CampaignTableView.Rows | src/components/organisms/CampaignTable.jsx:68-78 | the rows on screen are exactly the matching campaigns |
| Campaigns.FilteredCampaigns | src/components/pages/Campaigns.jsx:78-85 | a campaign is kept iff the search matches, the channel selection is empty or holds its channel id, and the status selection is empty or holds its status |
| Campaigns.NoFilterShowsAll | src/components/pages/Campaigns.jsx:78-85 | with nothing searched or selected every campaign is shown, in order |
| Campaigns.OneChannelSelected | src/components/pages/Campaigns.jsx:81 | selecting one channel id shows only that channel's campaigns |
| Campaigns.Cpa | src/components/pages/Campaigns.jsx:157 | budget/conversions with positive conversions, else 0 |
| Campaigns.ColorOf | src/components/pages/Campaigns.jsx:201-204 | emerald iff ROAS ≥ 3, yellow iff 2 ≤ ROAS < 3, red iff ROAS < 2 |
| Campaigns.ColorMonotone | src/components/pages/Campaigns.jsx:201-204 | a higher ROAS never gets a worse colour |
| Campaigns.StatusBadge | src/components/pages/Campaigns.jsx:54-61 | success iff active, warning iff paused, default for ended and anything else |
| Campaigns.OfferedTransitions | src/components/pages/Campaigns.jsx:236-253 | at most one transition, to the other of active/paused |
| Campaigns.TransitionsReversible | src/components/pages/Campaigns.jsx:236-253 | each offered transition is undone by the one offered next; ended offers none |
| Campaigns.FullPatchReplaces | src/components/pages/Campaigns.jsx:68 | sending the whole campaign as the patch replaces the stored record by it |
| Campaigns.StatusChangeLaws | src/components/pages/Campaigns.jsx:69-71 | a status change keeps the size and ids in place; of two changes only the last counts |
| Campaigns.CampaignsPage.constructor | src/components/pages/Campaigns.jsx:17-47 | the page's copy is the store's table, with no search and no selection |
| Campaigns.CampaignsPage.HandleStatusChange | src/components/pages/Campaigns.jsx:63-76 | no campaign with the id: nothing changes; otherwise the store record is overwritten by the copy with the new status, and if that succeeds the page shows the new status on that campaign only |
| Campaigns.CampaignsPage.Cards | src/components/pages/Campaigns.jsx:78-85 | the cards are exactly the passing campaigns |
| FilterSelect.Toggle | src/components/molecules/FilterSelect.jsx:15-24 | a value is selected afterwards iff it was not the clicked one and was selected, or it is the clicked one and was not selected |
| FilterSelect.WithoutLength | src/components/molecules/FilterSelect.jsx:20 | removing a value drops all of its occurrences |
| FilterSelect.ToggleLaws | src/components/molecules/FilterSelect.jsx:15-24 | a selected value loses every occurrence; an unselected one is appended at the end, and a second toggle gives back the list |
| FilterSelect.ToggleNoDup | src/components/molecules/FilterSelect.jsx:19-23 | a duplicate-free selection stays duplicate-free |
| FilterSelect.SelectedOptions | src/components/molecules/FilterSelect.jsx:28 | exactly the options whose value is selected |
| FilterSelect.SelectedOptionsOrder | src/components/molecules/FilterSelect.jsx:28 | the chosen options keep the options' order |
| FilterSelect.Label | src/components/molecules/FilterSelect.jsx:40-43 | the placeholder with nothing selected, otherwise text ending in " selected" |
| FilterSelect.LabelCounts | src/components/molecules/FilterSelect.jsx:40-43 | the label's number is the selection's length |
| ConversionTrendChart.DayPairs | src/components/organisms/ConversionTrendChart.jsx:35-36 | one (day, revenue) pair per conversion |
| ConversionTrendChart.TallyStep | src/components/organisms/ConversionTrendChart.jsx:37-42 | the reducer step keeps each day's count and revenue equal to the sums so far |
| ConversionTrendChart.DailyConversions | src/components/organisms/ConversionTrendChart.jsx:35-43 | the reducer yields each day's count and revenue, keys in first-seen order |
| ConversionTrendChart.DailyTotals | src/components/organisms/ConversionTrendChart.jsx:35-43 | every conversion lands in a group; group counts sum to the number of conversions and revenues to the total revenue |
| ConversionTrendChart.Entries | src/components/organisms/ConversionTrendChart.jsx:45 | `Object.entries`: one (day, totals) pair per day, in key order |
| ConversionTrendChart.LastN | src/components/organisms/ConversionTrendChart.jsx:47 | `slice(-n)`: the last n elements, or all when fewer |
| ConversionTrendChart.LastNSorted | src/components/organisms/ConversionTrendChart.jsx:47 | a suffix of a sorted list is sorted |
| ConversionTrendChart.LastNLatest | src/components/organisms/ConversionTrendChart.jsx:47 | every dropped element comes no later than every kept one |
| ConversionTrendChart.ChartDataLatest | src/components/organisms/ConversionTrendChart.jsx:45-47 | at most 30 groups, ascending by date, and they are the latest ones |
| ConversionTrendChart.ChartDataEntries | src/components/organisms/ConversionTrendChart.jsx:45-47 | every kept entry is a day of the grouping with that day's totals |
| ConversionTrendChart.ChartSeries | src/components/organisms/ConversionTrendChart.jsx:128-139 | categories, counts and revenues are aligned, one per kept group |
| Dashboard.DashboardMetrics | src/components/pages/Dashboard.jsx:40-43 | the number of conversions, the total revenue of the conversions and the total spend as the sum of the campaign budgets; avgRoas is revenue/spend with a positive spend, else 0 |
| Dashboard.TotalBudgetNonNegative | src/components/pages/Dashboard.jsx:42 | non-negative budgets give a non-negative total spend |
| Dashboard.MetricsMatchTrend | src/components/pages/Dashboard.jsx:40-41 | the dashboard's conversion count and revenue equal the sums of the trend chart's daily groups |
| Reports.RecipientCount | src/components/pages/Reports.jsx:89 | 0 for an empty field, otherwise the number of commas plus one |
| Reports.RecipientPieces | src/components/pages/Reports.jsx:89 | the pieces counted, joined by commas, give back the field |
| Reports.AcceptsNonBlank | src/components/pages/Reports.jsx:79-82 | a form is accepted iff its name has a non-space character |
| Reports.Toggled | src/components/pages/Reports.jsx:110 | the status always changes; paused iff it was active |
| Reports.ToggledTwice | src/components/pages/Reports.jsx:107-112 | toggling twice restores active or paused; any other status ends paused |
| Reports.InitialIds | src/components/pages/Reports.jsx:11-39 | the initial reports have ids 1, 2, 3 |
| Reports.CreateKeepsIds | src/components/pages/Reports.jsx:84-92 | while ids are positions plus one, length + 1 is fresh and the new report is the one found by it |
| Reports.UpdatesKeepIds | src/components/pages/Reports.jsx:98-112 | run and toggle change only the targeted reports' lastRun or status and keep ids in place |
| Reports.ReportsPage.constructor | src/components/pages/Reports.jsx:11-48 | the three initial reports, the empty form, the form hidden |
| Reports.ReportsPage.ShowCreateForm | src/components/pages/Reports.jsx:48 | only the form's visibility changes |
| Reports.ReportsPage.EditForm | src/components/pages/Reports.jsx:41-46 | only the form changes |
| Reports.ReportsPage.HandleCreateReport | src/components/pages/Reports.jsx:78-96 | a blank name changes nothing; otherwise the report (id length + 1, active, recipient count) is appended, and the form is reset and hidden |
| Reports.ReportsPage.HandleRunReport | src/components/pages/Reports.jsx:98-105 | only the targeted reports' lastRun becomes now |
| Reports.ReportsPage.HandleToggleStatus | src/components/pages/Reports.jsx:107-114 | only the targeted reports' status toggles |
| Settings.StatusBadge | src/components/pages/Settings.jsx:75-83 | success iff connected, danger iff error, warning iff syncing, default otherwise |
| Settings.OfferedActions | src/components/pages/Settings.jsx:197-224 | Sync and Disconnect iff connected, Connect otherwise |
| Settings.StatusFlips | src/components/pages/Settings.jsx:85-117 | connect offers Sync/Disconnect; disconnect offers Connect and clears lastSync; a sync in progress shows a warning, and its completion is a connection as of its start |
| Settings.SyncTwoSteps | src/components/pages/Settings.jsx:103-117 | both sync steps with nothing between equal one connect as of the first step |
| Settings.ToggleFlag | src/components/pages/Settings.jsx:336-342 | the flag flips and every other flag is kept (the switches at 361-417 do the same for slack, weekly and alerts) |
| Settings.ToggleFlagTwice | src/components/pages/Settings.jsx:336-342 | flipping a switch twice restores the preferences |
| Settings.SettingsPage.constructor | src/components/pages/Settings.jsx:12-66 | the five initial integrations and the initial preferences |
| Settings.SettingsPage.HandleConnect | src/components/pages/Settings.jsx:85-92 | the targeted integrations become connected with lastSync now; others and the preferences unchanged |
| Settings.SettingsPage.HandleDisconnect | src/components/pages/Settings.jsx:94-101 | the targeted integrations become disconnected with no lastSync; others unchanged |
| Settings.SettingsPage.HandleSync | src/components/pages/Settings.jsx:103-108 | the targeted integrations become syncing with lastSync now; others unchanged |
| Settings.SettingsPage.CompleteSync | src/components/pages/Settings.jsx:110-117 | the delayed step: the targeted integrations become connected, lastSync kept |
| Settings.SettingsPage.ToggleNotification | src/components/pages/Settings.jsx:336-342 | only that notification flag flips; the integrations are unchanged |

## Left out

- Asynchrony: the `setTimeout` delays, `async`/`await`, `Promise.all` and the loading/error states are not modelled. Every operation is synchronous.
- Rendering: JSX, animation, icons, toasts and class names are not modelled. The toast texts are not modelled either.
- Floating point: money, credits and ratios are exact `real`s. IEEE-754 rounding is not modelled, and neither is the float sum of the fallback weights, which can fall short of 1 and send a draw just below 1 to desktop. `toFixed` and locale formatting are display only.
- `Math.round` is floor(x + 1/2) on reals; rounding error on float inputs is not modelled.
- Time: "now" is a parameter and timestamps are integer milliseconds. The journey cutoff is now minus the days × 86,400,000 ms; `setDate`'s calendar arithmetic and daylight-saving shifts are not modelled. ISO strings and their parsing are not modelled.
- ConversionTrendChart.Day: the day of a conversion is its UTC day number (`timestamp / 86400000`), not the "YYYY-MM-DD" string. The date labels (`toLocaleDateString`) are not modelled.
- Randomness: the fallback of `inferDeviceType` takes its draw as a parameter (`draws: nat -> real` per touchpoint, one such function per conversion). The random "growth" figures of `getDeviceMetrics` are omitted.
- CrossDevice.Journeys: the draws are keyed by the conversion record (`draws: Conversion -> nat -> real`), so two equal conversion records get the same fallback devices. In the source each record makes its own `Math.random()` calls. This also holds for JourneyById, JourneysOfCustomer, DeviceMetrics and DeviceTransitionFlow.
- Mock data: the JSON imports are the constructors' argument. Only the fields the logic reads are modelled, and fields a spread would carry through unread are dropped.
- ConversionStore.ConversionService.Create requires a non-empty table: on an empty one `Math.max` of no ids is −Infinity, which has no integer model.
- CampaignStore.CampaignService.Create requires a non-empty table, for the same reason.
- ChannelStore.ChannelService.Create requires a non-empty table, for the same reason.
- Ids are `int`: `parseInt` of an id is the id itself. Non-numeric and fractional ids are not modelled.
- JavaScript falsy defaults (`x || 0`, `x || []`, `x || now`) are modelled as an absent `Option`. A present value that is falsy (0, "", NaN) behaves the same, except NaN, which has no model.
- Text: `toLowerCase` is ASCII-only. `trim` removes JavaScript's white-space and line-terminator set, so it matches the source.
- AttributionFlowChart.CalculateAttribution: a channel name that is an Object.prototype property name ("toString", "constructor") is not modelled. In the source `!attribution[channelName]` finds the inherited member, so no entry is made and `Object.entries` drops that channel; the model gives it a row like any other name.
- CrossDevice.DaysBack: a time range that is an Object.prototype property name is not modelled. In the source the lookup returns the inherited function, so the cutoff date is NaN and no journey is kept; the model uses 7 days.
- Object key order: map keys are kept in insertion order. JavaScript puts integer-like keys first, so a channel named with a bare number would be listed out of order.
- Seqs.SortAsc is a stable insertion sort standing for `Array.prototype.sort`. Equal keys keep their input order (Seqs.SortAscStable), as in the JavaScript engines' stable sort, but the model does not claim the engine's exact algorithm.
- Missing touchpoint lists (`undefined`) are the empty list everywhere except `AttributeConversion`, which takes an `Option` to model the `!touchpoints` guard.
- CampaignTable.CampaignTableView.Rows states only which campaigns are shown; the order and multiplicity are stated by CampaignTable.FilteredAndSortedRows.
- ConversionStore.ConversionService.ByCustomer, ByDateRange and ByChannel state membership only; the kept order is Seqs.FilterOrder.
- CampaignStore.CampaignService.ByChannel and CampaignStore.CampaignService.ByStatus state membership only; the kept order is Seqs.FilterOrder.
- Settings: the attribution-window, default-model, timezone and currency selects and `handleSaveSettings` are not modelled. The selects only set fields nothing else reads; `handleSaveSettings` only raises a toast. The tab switcher is not modelled either.
- Campaigns.StatusBadge and Settings.StatusBadge: a status that is an Object.prototype property name is not modelled. In the source `variants[status]` returns the inherited function instead of falling to 'default'; the badge is presentation only.
- Reports: `getStatusBadge` and `getTypeIcon` are not modelled; they are presentation lookups.
- CampaignTable's `getStatusBadge` is the same mapping as Campaigns.StatusBadge.
- The pages that only render service results (the cross-device tracking and attribution pages), the formatters, the date-range picker and the metric card are not part of this model.
