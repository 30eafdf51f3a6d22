/**
 * src/components/pages/Campaigns.jsx: the campaign cards page, with its
 * three-way filter, the ROAS and CPA figures, the ROAS colour, the status
 * badge and the pause/resume transitions that also update the campaign store.
 */
module Campaigns {
  import opened Results
  import opened Seqs
  import opened Text
  import opened Records
  import Tables
  import CampaignTable
  import CampaignStore

  /** A campaign passes when the search matches and each non-empty selection contains it. */
  predicate Passes(campaign: Campaign, channels: seq<Channel>, term: string,
                   selectedChannels: seq<string>, selectedStatuses: seq<string>) {
    && CampaignTable.MatchesSearch(campaign, channels, term)
    && (|selectedChannels| == 0 || IntToString(campaign.channelId) in selectedChannels)
    && (|selectedStatuses| == 0 || campaign.status in selectedStatuses)
  }

  /** `filteredCampaigns`: the passing campaigns, in table order. */
  function FilteredCampaigns(campaigns: seq<Campaign>, channels: seq<Channel>, term: string,
                             selectedChannels: seq<string>, selectedStatuses: seq<string>): (r: seq<Campaign>)
    ensures forall c :: c in r <==>
      && c in campaigns
      && CampaignTable.MatchesSearch(c, channels, term)
      && (|selectedChannels| == 0 || IntToString(c.channelId) in selectedChannels)
      && (|selectedStatuses| == 0 || c.status in selectedStatuses)
  {
    Filter(campaigns, (c: Campaign) => Passes(c, channels, term, selectedChannels, selectedStatuses))
  }

  /** With nothing searched and nothing selected, every campaign is shown, in order. */
  lemma NoFilterShowsAll(campaigns: seq<Campaign>, channels: seq<Channel>)
    ensures FilteredCampaigns(campaigns, channels, "", [], []) == campaigns
  {
    var p := (c: Campaign) => Passes(c, channels, "", [], []);
    forall i | 0 <= i < |campaigns| ensures p(campaigns[i]) {
      IncludesEmpty(ToLower(campaigns[i].name));
    }
    FilterAll(campaigns, p);
  }

  /**
   * Selecting one channel shows only campaigns on that channel: the ids are
   * compared as printed strings, and printing is one-to-one.
   */
  lemma OneChannelSelected(campaigns: seq<Campaign>, channels: seq<Channel>, term: string,
                           channelId: int, selectedStatuses: seq<string>)
    ensures forall c :: c in FilteredCampaigns(campaigns, channels, term, [IntToString(channelId)], selectedStatuses) ==>
      c.channelId == channelId
  {
    forall c | c in FilteredCampaigns(campaigns, channels, term, [IntToString(channelId)], selectedStatuses)
      ensures c.channelId == channelId
    {
      IntToStringInjective(c.channelId, channelId);
    }
  }

  /** The CPA figure: budget over conversions, 0 without a positive count. */
  function Cpa(campaign: Campaign): (r: real)
    ensures campaign.conversions > 0.0 ==> r * campaign.conversions == campaign.budget
    ensures campaign.conversions <= 0.0 ==> r == 0.0
  {
    if campaign.conversions > 0.0 then campaign.budget / campaign.conversions else 0.0
  }

  datatype RoasColor = Emerald | Yellow | Red

  /** The colour of the ROAS figure. */
  function ColorOf(roas: real): (color: RoasColor)
    ensures color == Emerald <==> roas >= 3.0
    ensures color == Yellow <==> 2.0 <= roas < 3.0
    ensures color == Red <==> roas < 2.0
  {
    if roas >= 3.0 then Emerald else if roas >= 2.0 then Yellow else Red
  }

  function Rank(color: RoasColor): nat {
    match color
    case Red => 0
    case Yellow => 1
    case Emerald => 2
  }

  /** A higher ROAS never gets a worse colour. */
  lemma ColorMonotone(a: real, b: real)
    requires a <= b
    ensures Rank(ColorOf(a)) <= Rank(ColorOf(b))
  {
  }

  /** `getStatusBadge`: the badge variant for a status. */
  function StatusBadge(status: string): (variant: string)
    ensures variant == "success" <==> status == "active"
    ensures variant == "warning" <==> status == "paused"
    ensures variant == "default" <==> status != "active" && status != "paused"
  {
    if status == "active" then "success"
    else if status == "paused" then "warning"
    else "default"
  }

  /** The status a card's button moves a campaign to: Pause on active, Resume on paused, none otherwise. */
  function OfferedTransitions(status: string): (next: seq<string>)
    ensures |next| <= 1
    ensures forall t :: t in next ==> t != status && t in ["active", "paused"]
  {
    if status == "active" then ["paused"]
    else if status == "paused" then ["active"]
    else []
  }

  /** Every offered transition can be undone by the one offered next, and an ended campaign is offered none. */
  lemma TransitionsReversible(status: string)
    ensures forall t :: t in OfferedTransitions(status) ==> OfferedTransitions(t) == [status]
    ensures OfferedTransitions("ended") == []
  {
  }

  /** `{ ...campaign }` as the patch sent to the store: every field given. */
  function FullPatch(c: Campaign): CampaignStore.CampaignPatch {
    CampaignStore.CampaignPatch(Some(c.Id), Some(c.name), Some(c.channelId), Some(c.status), Some(c.budget),
                                Some(c.spend), Some(c.revenue), Some(c.conversions), Some(c.impressions),
                                Some(c.clicks), Some(c.ctr), Some(c.startDate), Some(c.endDate))
  }

  /** A full patch replaces the stored record by the page's copy. */
  lemma FullPatchReplaces(stored: Campaign, c: Campaign)
    ensures CampaignStore.Merge(stored, FullPatch(c)) == c
  {
  }

  /** The page's copy with every campaign under `id` given the new status. */
  function WithStatus(campaigns: seq<Campaign>, id: int, status: string): seq<Campaign> {
    Tables.UpdateWhere(campaigns, CampaignKey, id, (c: Campaign) => c.(status := status))
  }

  /** A status change keeps every id in place and only the last of two changes counts. */
  lemma StatusChangeLaws(campaigns: seq<Campaign>, id: int, first: string, second: string)
    ensures |WithStatus(campaigns, id, first)| == |campaigns|
    ensures forall i :: 0 <= i < |campaigns| ==> WithStatus(campaigns, id, first)[i].Id == campaigns[i].Id
    ensures WithStatus(WithStatus(campaigns, id, first), id, second) == WithStatus(campaigns, id, second)
  {
    var once := WithStatus(campaigns, id, first);
    var twice := WithStatus(once, id, second);
    forall i | 0 <= i < |campaigns| ensures twice[i] == WithStatus(campaigns, id, second)[i] {
      assert once[i].Id == campaigns[i].Id;
    }
  }

  /** The page's state: its copy of the campaigns, the channels, the filters, and the store it writes to. */
  class CampaignsPage {
    var campaigns: seq<Campaign>
    var channels: seq<Channel>
    var searchTerm: string
    var selectedChannels: seq<string>
    var selectedStatuses: seq<string>
    const service: CampaignStore.CampaignService

    /** The page once `loadData` has copied both tables. */
    constructor(service: CampaignStore.CampaignService, channels: seq<Channel>)
      ensures this.service == service && campaigns == service.campaigns && this.channels == channels
      ensures searchTerm == "" && selectedChannels == [] && selectedStatuses == []
    {
      this.service := service;
      campaigns := service.campaigns;
      this.channels := channels;
      searchTerm := "";
      selectedChannels := [];
      selectedStatuses := [];
    }

    /**
     * `handleStatusChange`: with no campaign under the id on the page, nothing
     * happens.  Otherwise the store's record is overwritten by the page's copy
     * with the new status; when the store has no such record, the update
     * fails and the page is left as it was; else every card with the id shows
     * the new status.
     */
    method HandleStatusChange(campaignId: int, newStatus: string)
      modifies this, service
      ensures channels == old(channels) && searchTerm == old(searchTerm)
      ensures selectedChannels == old(selectedChannels) && selectedStatuses == old(selectedStatuses)
      ensures IndexOf(old(campaigns), CampaignKey, campaignId).None? ==>
        campaigns == old(campaigns) && service.campaigns == old(service.campaigns)
      ensures IndexOf(old(campaigns), CampaignKey, campaignId).Some? ==>
        var campaign := old(campaigns)[IndexOf(old(campaigns), CampaignKey, campaignId).value];
        var index := IndexOf(old(service.campaigns), CampaignKey, campaignId);
        && (index.None? ==> campaigns == old(campaigns) && service.campaigns == old(service.campaigns))
        && (index.Some? ==>
              && service.campaigns == old(service.campaigns)[index.value := campaign.(status := newStatus)]
              && campaigns == WithStatus(old(campaigns), campaignId, newStatus))
    {
      var found := IndexOf(campaigns, CampaignKey, campaignId);
      if found.None? {
        return;
      }
      var campaign := campaigns[found.value];
      var updated := service.Update(campaignId, FullPatch(campaign.(status := newStatus)));
      if updated.Failure? {
        return;
      }
      FullPatchReplaces(old(service.campaigns)[IndexOf(old(service.campaigns), CampaignKey, campaignId).value],
                        campaign.(status := newStatus));
      campaigns := WithStatus(campaigns, campaignId, newStatus);
    }

    /** The cards on screen. */
    function Cards(): (cards: seq<Campaign>)
      reads this
      ensures forall c :: c in cards <==> c in campaigns && Passes(c, channels, searchTerm, selectedChannels, selectedStatuses)
    {
      FilteredCampaigns(campaigns, channels, searchTerm, selectedChannels, selectedStatuses)
    }
  }
}
