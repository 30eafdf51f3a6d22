/**
 * src/services/api/channelService.js: the channels table, changed in place by
 * create, update and delete, with the lookup by id.
 */
module ChannelStore {
  import opened Results
  import opened Seqs
  import opened Records
  import Tables

  const NOT_FOUND := "Channel not found"

  /** The argument of `create`: the name, the counters a caller may leave out, and an overriding id. */
  datatype ChannelInput = ChannelInput(
    Id: Option<int>,
    name: string,
    spend: Option<real>,
    conversions: Option<real>,
    revenue: Option<real>,
    roas: Option<real>)

  /** The argument of `update`: the fields present overwrite the record's. */
  datatype ChannelPatch = ChannelPatch(
    Id: Option<int>,
    name: Option<string>,
    spend: Option<real>,
    conversions: Option<real>,
    revenue: Option<real>,
    roas: Option<real>)

  /** `{ Id: nextId, ...input, spend: input.spend || 0, ... }`. */
  function NewChannel(nextId: int, input: ChannelInput): Channel {
    Channel(input.Id.GetOr(nextId), input.name, input.spend.GetOr(0.0),
            input.conversions.GetOr(0.0), input.revenue.GetOr(0.0), input.roas.GetOr(0.0))
  }

  /** `{ ...channel, ...patch }`. */
  function Merge(channel: Channel, patch: ChannelPatch): Channel {
    Channel(patch.Id.GetOr(channel.Id), patch.name.GetOr(channel.name), patch.spend.GetOr(channel.spend),
            patch.conversions.GetOr(channel.conversions), patch.revenue.GetOr(channel.revenue),
            patch.roas.GetOr(channel.roas))
  }

  /** A channel created with a name alone starts with no activity and the next id. */
  lemma NewChannelDefaults(nextId: int, name: string)
    ensures NewChannel(nextId, ChannelInput(None, name, None, None, None, None))
      == Channel(nextId, name, 0.0, 0.0, 0.0, 0.0)
  {
  }

  /** An empty patch changes nothing, and patching twice is patching once. */
  lemma MergeLaws(channel: Channel, patch: ChannelPatch)
    ensures Merge(channel, ChannelPatch(None, None, None, None, None, None)) == channel
    ensures Merge(Merge(channel, patch), patch) == Merge(channel, patch)
  {
  }

  class ChannelService {
    var channels: seq<Channel>

    constructor(data: seq<Channel>)
      ensures channels == data
    {
      channels := data;
    }

    /** `getAll`: a copy of the table, same records, same order. */
    method GetAll() returns (all: seq<Channel>)
      ensures all == channels
    {
      all := channels;
    }

    /** `getById`: the first channel with the id, or "Channel not found". */
    function GetById(id: int): (r: Result<Channel>)
      reads this
      ensures r.Failure? <==> forall i :: 0 <= i < |channels| ==> channels[i].Id != id
      ensures r.Failure? ==> r.message == NOT_FOUND
      ensures r.Success? ==> r.value in channels && r.value.Id == id
      ensures r.Success? ==> exists i :: 0 <= i < |channels| && channels[i] == r.value
                                && forall j :: 0 <= j < i ==> channels[j].Id != id
    {
      Tables.Find(channels, ChannelKey, id, NOT_FOUND)
    }

    /**
     * `create`: appends the new channel, whose id is one more than the
     * largest id of the (non-empty) table unless the input gives one.
     */
    method Create(input: ChannelInput) returns (created: Channel)
      requires |channels| > 0
      modifies this
      ensures created == NewChannel(Tables.NextId(old(channels), ChannelKey), input)
      ensures channels == old(channels) + [created]
    {
      var maxId := MaxOf(channels, ChannelKey);
      created := NewChannel(maxId + 1, input);
      channels := channels + [created];
    }

    /**
     * `update`: merges the patch into the first channel with the id and
     * returns the result; with no such channel, fails and changes nothing.
     */
    method Update(id: int, patch: ChannelPatch) returns (r: Result<Channel>)
      modifies this
      ensures IndexOf(old(channels), ChannelKey, id).None? ==>
        r == Failure(NOT_FOUND) && channels == old(channels)
      ensures IndexOf(old(channels), ChannelKey, id).Some? ==>
        var index := IndexOf(old(channels), ChannelKey, id).value;
        && channels == old(channels)[index := Merge(old(channels)[index], patch)]
        && r == Success(channels[index])
    {
      var index := IndexOf(channels, ChannelKey, id);
      if index.None? {
        return Failure(NOT_FOUND);
      }
      channels := channels[index.value := Merge(channels[index.value], patch)];
      r := Success(channels[index.value]);
    }

    /**
     * `delete`: removes the first channel with the id and returns it; with
     * no such channel, fails and changes nothing.
     */
    method Delete(id: int) returns (r: Result<Channel>)
      modifies this
      ensures IndexOf(old(channels), ChannelKey, id).None? ==>
        r == Failure(NOT_FOUND) && channels == old(channels)
      ensures IndexOf(old(channels), ChannelKey, id).Some? ==>
        var index := IndexOf(old(channels), ChannelKey, id).value;
        && r == Success(old(channels)[index])
        && channels == Tables.RemoveAt(old(channels), index)
    {
      var index := IndexOf(channels, ChannelKey, id);
      if index.None? {
        return Failure(NOT_FOUND);
      }
      r := Success(channels[index.value]);
      channels := Tables.RemoveAt(channels, index.value);
    }
  }

  /** A channel created without its own id is found by its new id. */
  lemma CreateThenGet(channels: seq<Channel>, input: ChannelInput)
    requires |channels| > 0
    requires input.Id.None?
    ensures var created := NewChannel(Tables.NextId(channels, ChannelKey), input);
      Tables.Find(channels + [created], ChannelKey, created.Id, NOT_FOUND) == Success(created)
  {
    var created := NewChannel(Tables.NextId(channels, ChannelKey), input);
    Tables.FindAppended(channels, ChannelKey, created, NOT_FOUND);
  }

  /** With unique ids, a deleted channel is no longer found. */
  lemma DeleteThenGet(channels: seq<Channel>, id: int)
    requires IndexOf(channels, ChannelKey, id).Some?
    requires forall i, j :: 0 <= i < j < |channels| ==> channels[i].Id != channels[j].Id
    ensures var index := IndexOf(channels, ChannelKey, id).value;
      Tables.Find(Tables.RemoveAt(channels, index), ChannelKey, id, NOT_FOUND) == Failure(NOT_FOUND)
  {
    Tables.FindRemoved(channels, ChannelKey, IndexOf(channels, ChannelKey, id).value, NOT_FOUND);
  }
}
