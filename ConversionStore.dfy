/**
 * src/services/api/conversionService.js: the conversions table, changed in
 * place by create (`push`), update (assignment at an index) and delete
 * (`splice`), with lookups and order-preserving filters over it.
 */
module ConversionStore {
  import opened Results
  import opened Seqs
  import opened Records
  import Tables

  const NOT_FOUND := "Conversion not found"

  /**
   * The argument of `create`: a caller may supply the id (the spread then
   * overrides the computed one), the timestamp and the touchpoints.
   */
  datatype ConversionInput = ConversionInput(
    Id: Option<int>,
    customerId: string,
    revenue: real,
    timestamp: Option<int>,
    touchpoints: Option<seq<Touchpoint>>)

  /** The argument of `update`: the fields present overwrite the record's. */
  datatype ConversionPatch = ConversionPatch(
    Id: Option<int>,
    customerId: Option<string>,
    revenue: Option<real>,
    timestamp: Option<int>,
    touchpoints: Option<seq<Touchpoint>>)

  /** `{ Id: nextId, ...input, timestamp: input.timestamp || now, touchpoints: input.touchpoints || [] }`. */
  function NewConversion(nextId: int, input: ConversionInput, now: int): Conversion {
    Conversion(input.Id.GetOr(nextId), input.customerId, input.revenue,
               input.timestamp.GetOr(now), input.touchpoints.GetOr([]))
  }

  /** `{ ...conversion, ...patch }`. */
  function Merge(conversion: Conversion, patch: ConversionPatch): Conversion {
    Conversion(patch.Id.GetOr(conversion.Id), patch.customerId.GetOr(conversion.customerId),
               patch.revenue.GetOr(conversion.revenue), patch.timestamp.GetOr(conversion.timestamp),
               patch.touchpoints.GetOr(conversion.touchpoints))
  }

  /** A new conversion without its own timestamp or touchpoints gets `now` and none. */
  lemma NewConversionDefaults(nextId: int, input: ConversionInput, now: int)
    ensures input.timestamp.None? ==> NewConversion(nextId, input, now).timestamp == now
    ensures input.touchpoints.None? ==> NewConversion(nextId, input, now).touchpoints == []
    ensures input.Id.None? ==> NewConversion(nextId, input, now).Id == nextId
  {
  }

  /** An empty patch changes nothing, and applying a patch twice is applying it once. */
  lemma MergeLaws(conversion: Conversion, patch: ConversionPatch)
    ensures Merge(conversion, ConversionPatch(None, None, None, None, None)) == conversion
    ensures Merge(Merge(conversion, patch), patch) == Merge(conversion, patch)
  {
  }

  /** Whether a conversion has a touchpoint on the channel. */
  predicate OnChannel(conversion: Conversion, channelId: int) {
    exists i :: 0 <= i < |conversion.touchpoints| && conversion.touchpoints[i].channelId == channelId
  }

  class ConversionService {
    var conversions: seq<Conversion>

    constructor(data: seq<Conversion>)
      ensures conversions == data
    {
      conversions := data;
    }

    /** `getAll`: a copy of the table, same records, same order. */
    method GetAll() returns (all: seq<Conversion>)
      ensures all == conversions
    {
      all := conversions;
    }

    /** `getById`: the first conversion with the id, or "Conversion not found". */
    function GetById(id: int): (r: Result<Conversion>)
      reads this
      ensures r.Failure? <==> forall i :: 0 <= i < |conversions| ==> conversions[i].Id != id
      ensures r.Failure? ==> r.message == NOT_FOUND
      ensures r.Success? ==> r.value in conversions && r.value.Id == id
      ensures r.Success? ==> exists i :: 0 <= i < |conversions| && conversions[i] == r.value
                                && forall j :: 0 <= j < i ==> conversions[j].Id != id
    {
      Tables.Find(conversions, ConversionKey, id, NOT_FOUND)
    }

    /**
     * `create`: appends the new conversion, whose id is one more than the
     * largest id of the (non-empty) table unless the input gives one.
     */
    method Create(input: ConversionInput, now: int) returns (created: Conversion)
      requires |conversions| > 0
      modifies this
      ensures created == NewConversion(Tables.NextId(old(conversions), ConversionKey), input, now)
      ensures conversions == old(conversions) + [created]
    {
      var maxId := MaxOf(conversions, ConversionKey);
      created := NewConversion(maxId + 1, input, now);
      conversions := conversions + [created];
    }

    /**
     * `update`: merges the patch into the first conversion with the id and
     * returns the result; with no such conversion, fails and changes nothing.
     */
    method Update(id: int, patch: ConversionPatch) returns (r: Result<Conversion>)
      modifies this
      ensures IndexOf(old(conversions), ConversionKey, id).None? ==>
        r == Failure(NOT_FOUND) && conversions == old(conversions)
      ensures IndexOf(old(conversions), ConversionKey, id).Some? ==>
        var index := IndexOf(old(conversions), ConversionKey, id).value;
        && conversions == old(conversions)[index := Merge(old(conversions)[index], patch)]
        && r == Success(conversions[index])
    {
      var index := IndexOf(conversions, ConversionKey, id);
      if index.None? {
        return Failure(NOT_FOUND);
      }
      conversions := conversions[index.value := Merge(conversions[index.value], patch)];
      r := Success(conversions[index.value]);
    }

    /**
     * `delete`: removes the first conversion with the id and returns it; with
     * no such conversion, fails and changes nothing.
     */
    method Delete(id: int) returns (r: Result<Conversion>)
      modifies this
      ensures IndexOf(old(conversions), ConversionKey, id).None? ==>
        r == Failure(NOT_FOUND) && conversions == old(conversions)
      ensures IndexOf(old(conversions), ConversionKey, id).Some? ==>
        var index := IndexOf(old(conversions), ConversionKey, id).value;
        && r == Success(old(conversions)[index])
        && conversions == Tables.RemoveAt(old(conversions), index)
    {
      var index := IndexOf(conversions, ConversionKey, id);
      if index.None? {
        return Failure(NOT_FOUND);
      }
      r := Success(conversions[index.value]);
      conversions := Tables.RemoveAt(conversions, index.value);
    }

    /** `getByCustomer`: the conversions of exactly that customer, in table order. */
    function ByCustomer(customerId: string): (r: seq<Conversion>)
      reads this
      ensures forall c :: c in r <==> c in conversions && c.customerId == customerId
    {
      Filter(conversions, (c: Conversion) => c.customerId == customerId)
    }

    /** `getByDateRange`: the conversions from `start` to `end`, both included, in table order. */
    function ByDateRange(start: int, end: int): (r: seq<Conversion>)
      reads this
      ensures forall c :: c in r <==> c in conversions && start <= c.timestamp <= end
    {
      Filter(conversions, (c: Conversion) => c.timestamp >= start && c.timestamp <= end)
    }

    /** `getByChannel`: the conversions with a touchpoint on the channel, in table order. */
    function ByChannel(channelId: int): (r: seq<Conversion>)
      reads this
      ensures forall c :: c in r <==> c in conversions && OnChannel(c, channelId)
    {
      Filter(conversions, (c: Conversion) => OnChannel(c, channelId))
    }
  }

  /** A conversion created without its own id is found by its new id. */
  lemma CreateThenGet(conversions: seq<Conversion>, input: ConversionInput, now: int)
    requires |conversions| > 0
    requires input.Id.None?
    ensures var created := NewConversion(Tables.NextId(conversions, ConversionKey), input, now);
      Tables.Find(conversions + [created], ConversionKey, created.Id, NOT_FOUND) == Success(created)
  {
    var created := NewConversion(Tables.NextId(conversions, ConversionKey), input, now);
    Tables.FindAppended(conversions, ConversionKey, created, NOT_FOUND);
  }

  /** After an update that keeps the id, the lookup returns the merged conversion. */
  lemma UpdateThenGet(conversions: seq<Conversion>, id: int, patch: ConversionPatch)
    requires IndexOf(conversions, ConversionKey, id).Some?
    requires patch.Id.None? || patch.Id == Some(id)
    ensures var index := IndexOf(conversions, ConversionKey, id).value;
      var merged := Merge(conversions[index], patch);
      Tables.Find(conversions[index := merged], ConversionKey, id, NOT_FOUND) == Success(merged)
  {
    var index := IndexOf(conversions, ConversionKey, id).value;
    Tables.FindReplaced(conversions, ConversionKey, index, Merge(conversions[index], patch), NOT_FOUND);
  }

  /** With unique ids, a deleted conversion is no longer found. */
  lemma DeleteThenGet(conversions: seq<Conversion>, id: int)
    requires IndexOf(conversions, ConversionKey, id).Some?
    requires forall i, j :: 0 <= i < j < |conversions| ==> conversions[i].Id != conversions[j].Id
    ensures var index := IndexOf(conversions, ConversionKey, id).value;
      Tables.Find(Tables.RemoveAt(conversions, index), ConversionKey, id, NOT_FOUND) == Failure(NOT_FOUND)
  {
    Tables.FindRemoved(conversions, ConversionKey, IndexOf(conversions, ConversionKey, id).value, NOT_FOUND);
  }
}
