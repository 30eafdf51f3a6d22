/**
 * src/services/api/campaignService.js: the campaigns table, changed in
 * place by create, update and delete, with lookups by id, channel and status.
 */
module CampaignStore {
  import opened Results
  import opened Seqs
  import opened Records
  import Tables

  const NOT_FOUND := "Campaign not found"

  /**
   * The argument of `create`: the form's fields, plus the counters a caller
   * may leave out (each then starts at 0) and an id that would override the
   * computed one.
   */
  datatype CampaignInput = CampaignInput(
    Id: Option<int>,
    name: string,
    channelId: int,
    status: string,
    budget: real,
    spend: Option<real>,
    revenue: Option<real>,
    conversions: Option<real>,
    impressions: Option<real>,
    clicks: Option<real>,
    ctr: Option<real>,
    startDate: int,
    endDate: int)

  /** The argument of `update`: the fields present overwrite the record's. */
  datatype CampaignPatch = CampaignPatch(
    Id: Option<int>,
    name: Option<string>,
    channelId: Option<int>,
    status: Option<string>,
    budget: Option<real>,
    spend: Option<real>,
    revenue: Option<real>,
    conversions: Option<real>,
    impressions: Option<real>,
    clicks: Option<real>,
    ctr: Option<real>,
    startDate: Option<int>,
    endDate: Option<int>)

  /** The patch that changes only the status, as the campaigns page sends it. */
  function StatusPatch(status: string): CampaignPatch {
    CampaignPatch(None, None, None, Some(status), None, None, None, None, None, None, None, None, None)
  }

  /** `{ Id: nextId, ...input, conversions: input.conversions || 0, ... }`. */
  function NewCampaign(nextId: int, input: CampaignInput): Campaign {
    Campaign(input.Id.GetOr(nextId), input.name, input.channelId, input.status, input.budget,
             input.spend.GetOr(0.0), input.revenue.GetOr(0.0), input.conversions.GetOr(0.0),
             input.impressions.GetOr(0.0), input.clicks.GetOr(0.0), input.ctr.GetOr(0.0),
             input.startDate, input.endDate)
  }

  /** `{ ...campaign, ...patch }`. */
  function Merge(campaign: Campaign, patch: CampaignPatch): Campaign {
    Campaign(patch.Id.GetOr(campaign.Id), patch.name.GetOr(campaign.name),
             patch.channelId.GetOr(campaign.channelId), patch.status.GetOr(campaign.status),
             patch.budget.GetOr(campaign.budget), patch.spend.GetOr(campaign.spend),
             patch.revenue.GetOr(campaign.revenue), patch.conversions.GetOr(campaign.conversions),
             patch.impressions.GetOr(campaign.impressions), patch.clicks.GetOr(campaign.clicks),
             patch.ctr.GetOr(campaign.ctr), patch.startDate.GetOr(campaign.startDate),
             patch.endDate.GetOr(campaign.endDate))
  }

  /** A campaign created from the form alone starts with no activity and the next id. */
  lemma NewCampaignDefaults(nextId: int, input: CampaignInput)
    requires input.Id.None? && input.spend.None? && input.revenue.None? && input.conversions.None?
    requires input.impressions.None? && input.clicks.None? && input.ctr.None?
    ensures var c := NewCampaign(nextId, input);
      && c.Id == nextId && c.name == input.name && c.channelId == input.channelId
      && c.status == input.status && c.budget == input.budget
      && c.spend == 0.0 && c.revenue == 0.0 && c.conversions == 0.0
      && c.impressions == 0.0 && c.clicks == 0.0 && c.ctr == 0.0
      && c.startDate == input.startDate && c.endDate == input.endDate
  {
  }

  /** A status patch changes the status and nothing else; patching twice is patching once. */
  lemma MergeLaws(campaign: Campaign, patch: CampaignPatch, status: string)
    ensures Merge(campaign, StatusPatch(status)) == campaign.(status := status)
    ensures Merge(Merge(campaign, patch), patch) == Merge(campaign, patch)
  {
  }

  class CampaignService {
    var campaigns: seq<Campaign>

    constructor(data: seq<Campaign>)
      ensures campaigns == data
    {
      campaigns := data;
    }

    /** `getAll`: a copy of the table, same records, same order. */
    method GetAll() returns (all: seq<Campaign>)
      ensures all == campaigns
    {
      all := campaigns;
    }

    /** `getById`: the first campaign with the id, or "Campaign not found". */
    function GetById(id: int): (r: Result<Campaign>)
      reads this
      ensures r.Failure? <==> forall i :: 0 <= i < |campaigns| ==> campaigns[i].Id != id
      ensures r.Failure? ==> r.message == NOT_FOUND
      ensures r.Success? ==> r.value in campaigns && r.value.Id == id
      ensures r.Success? ==> exists i :: 0 <= i < |campaigns| && campaigns[i] == r.value
                                && forall j :: 0 <= j < i ==> campaigns[j].Id != id
    {
      Tables.Find(campaigns, CampaignKey, id, NOT_FOUND)
    }

    /**
     * `create`: appends the new campaign, whose id is one more than the
     * largest id of the (non-empty) table unless the input gives one.
     */
    method Create(input: CampaignInput) returns (created: Campaign)
      requires |campaigns| > 0
      modifies this
      ensures created == NewCampaign(Tables.NextId(old(campaigns), CampaignKey), input)
      ensures campaigns == old(campaigns) + [created]
    {
      var maxId := MaxOf(campaigns, CampaignKey);
      created := NewCampaign(maxId + 1, input);
      campaigns := campaigns + [created];
    }

    /**
     * `update`: merges the patch into the first campaign with the id and
     * returns the result; with no such campaign, fails and changes nothing.
     */
    method Update(id: int, patch: CampaignPatch) returns (r: Result<Campaign>)
      modifies this
      ensures IndexOf(old(campaigns), CampaignKey, id).None? ==>
        r == Failure(NOT_FOUND) && campaigns == old(campaigns)
      ensures IndexOf(old(campaigns), CampaignKey, id).Some? ==>
        var index := IndexOf(old(campaigns), CampaignKey, id).value;
        && campaigns == old(campaigns)[index := Merge(old(campaigns)[index], patch)]
        && r == Success(campaigns[index])
    {
      var index := IndexOf(campaigns, CampaignKey, id);
      if index.None? {
        return Failure(NOT_FOUND);
      }
      campaigns := campaigns[index.value := Merge(campaigns[index.value], patch)];
      r := Success(campaigns[index.value]);
    }

    /**
     * `delete`: removes the first campaign with the id and returns it; with
     * no such campaign, fails and changes nothing.
     */
    method Delete(id: int) returns (r: Result<Campaign>)
      modifies this
      ensures IndexOf(old(campaigns), CampaignKey, id).None? ==>
        r == Failure(NOT_FOUND) && campaigns == old(campaigns)
      ensures IndexOf(old(campaigns), CampaignKey, id).Some? ==>
        var index := IndexOf(old(campaigns), CampaignKey, id).value;
        && r == Success(old(campaigns)[index])
        && campaigns == Tables.RemoveAt(old(campaigns), index)
    {
      var index := IndexOf(campaigns, CampaignKey, id);
      if index.None? {
        return Failure(NOT_FOUND);
      }
      r := Success(campaigns[index.value]);
      campaigns := Tables.RemoveAt(campaigns, index.value);
    }

    /** `getByChannel`: the campaigns on exactly that channel, in table order. */
    function ByChannel(channelId: int): (r: seq<Campaign>)
      reads this
      ensures forall c :: c in r <==> c in campaigns && c.channelId == channelId
    {
      Filter(campaigns, (c: Campaign) => c.channelId == channelId)
    }

    /** `getByStatus`: the campaigns with exactly that status, in table order. */
    function ByStatus(status: string): (r: seq<Campaign>)
      reads this
      ensures forall c :: c in r <==> c in campaigns && c.status == status
    {
      Filter(campaigns, (c: Campaign) => c.status == status)
    }
  }

  /** A campaign created without its own id is found by its new id. */
  lemma CreateThenGet(campaigns: seq<Campaign>, input: CampaignInput)
    requires |campaigns| > 0
    requires input.Id.None?
    ensures var created := NewCampaign(Tables.NextId(campaigns, CampaignKey), input);
      Tables.Find(campaigns + [created], CampaignKey, created.Id, NOT_FOUND) == Success(created)
  {
    var created := NewCampaign(Tables.NextId(campaigns, CampaignKey), input);
    Tables.FindAppended(campaigns, CampaignKey, created, NOT_FOUND);
  }

  /** After a status change, the lookup returns the campaign with the new status. */
  lemma StatusChangeThenGet(campaigns: seq<Campaign>, id: int, status: string)
    requires IndexOf(campaigns, CampaignKey, id).Some?
    ensures var index := IndexOf(campaigns, CampaignKey, id).value;
      Tables.Find(campaigns[index := Merge(campaigns[index], StatusPatch(status))], CampaignKey, id, NOT_FOUND)
        == Success(campaigns[index].(status := status))
  {
    var index := IndexOf(campaigns, CampaignKey, id).value;
    Tables.FindReplaced(campaigns, CampaignKey, index, Merge(campaigns[index], StatusPatch(status)), NOT_FOUND);
  }
}
