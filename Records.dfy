/**
 * The records the dashboard works on, as loaded from its mock data, and the
 * channel-name lookup that several components share.
 */
module Records {
  import opened Results
  import opened Seqs

  /** One marketing interaction; `timestamp` is in milliseconds since the epoch. */
  datatype Touchpoint = Touchpoint(channelId: int, interaction: string, timestamp: int)

  /** A conversion; a record without touchpoints is modelled with `touchpoints == []`. */
  datatype Conversion = Conversion(
    Id: int,
    customerId: string,
    revenue: real,
    timestamp: int,
    touchpoints: seq<Touchpoint>)

  datatype Campaign = Campaign(
    Id: int,
    name: string,
    channelId: int,
    status: string,
    budget: real,
    spend: real,
    revenue: real,
    conversions: real,
    impressions: real,
    clicks: real,
    ctr: real,
    startDate: int,
    endDate: int)

  datatype Channel = Channel(
    Id: int,
    name: string,
    spend: real,
    conversions: real,
    revenue: real,
    roas: real)

  function ConversionKey(c: Conversion): int { c.Id }
  function CampaignKey(c: Campaign): int { c.Id }
  function ChannelKey(c: Channel): int { c.Id }

  const UNKNOWN_CHANNEL := "Unknown"

  /** Milliseconds in a day. */
  const DAY_MS := 86400000

  /**
   * `getChannelName` of the components: the name of the first channel whose
   * id matches, or "Unknown" when none does.
   */
  function ChannelName(channels: seq<Channel>, id: int): string {
    if channels == [] then UNKNOWN_CHANNEL
    else if channels[0].Id == id then channels[0].name
    else ChannelName(channels[1..], id)
  }

  /** The name found is that of the first channel with the id; without one it is "Unknown". */
  lemma {:induction false} ChannelNameFirstMatch(channels: seq<Channel>, id: int)
    ensures (forall i :: 0 <= i < |channels| ==> channels[i].Id != id) ==> ChannelName(channels, id) == UNKNOWN_CHANNEL
    ensures forall i ::
              (0 <= i < |channels| && channels[i].Id == id &&
               forall j :: 0 <= j < i ==> channels[j].Id != id)
              ==> ChannelName(channels, id) == channels[i].name
  {
    if channels != [] && channels[0].Id != id {
      ChannelNameFirstMatch(channels[1..], id);
      assert forall i :: 1 <= i < |channels| ==> channels[i] == channels[1..][i - 1];
    }
  }

  /** `conversions.reduce((sum, c) => sum + c.revenue, 0)`. */
  function TotalRevenue(conversions: seq<Conversion>): real {
    if conversions == [] then 0.0
    else TotalRevenue(conversions[..|conversions| - 1]) + conversions[|conversions| - 1].revenue
  }
}
