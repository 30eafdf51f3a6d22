/**
 * src/components/organisms/CampaignTable.jsx: the sortable, searchable
 * campaign table.  Its sort column and direction form a small state machine;
 * the rows shown are the campaigns matching the search, sorted by that column.
 */
module CampaignTable {
  import opened Seqs
  import opened Text
  import opened Records

  /** The three column headers that sort the table. */
  datatype SortField = Budget | Conversions | Revenue

  datatype Direction = Asc | Desc

  /** `campaign[sortField]`. */
  function FieldValue(campaign: Campaign, field: SortField): real {
    match field
    case Budget => campaign.budget
    case Conversions => campaign.conversions
    case Revenue => campaign.revenue
  }

  datatype SortState = SortState(field: SortField, direction: Direction)

  /** `useState('revenue')`, `useState('desc')`. */
  const INITIAL_SORT := SortState(Revenue, Desc)

  /** `handleSort`: the sort state after a click on the header of `field`. */
  function NextSort(state: SortState, field: SortField): (next: SortState)
    ensures next.field == field
    ensures field == state.field ==> next.direction != state.direction
    ensures field != state.field ==> next.direction == Desc
  {
    if field == state.field then SortState(field, if state.direction == Asc then Desc else Asc)
    else SortState(field, Desc)
  }

  /**
   * Two clicks on the current column restore the sort; two clicks on another
   * column sort it ascending.
   */
  lemma SortClickedTwice(state: SortState, field: SortField)
    ensures field == state.field ==> NextSort(NextSort(state, field), field) == state
    ensures field != state.field ==> NextSort(NextSort(state, field), field) == SortState(field, Asc)
  {
  }

  /** The search: the term occurs, ignoring ASCII case, in the campaign's name or its channel's name. */
  predicate MatchesSearch(campaign: Campaign, channels: seq<Channel>, term: string) {
    var t := ToLower(term);
    Includes(ToLower(campaign.name), t) || Includes(ToLower(ChannelName(channels, campaign.channelId)), t)
  }

  /** Lower-casing twice is lower-casing once, so the case of the term does not matter. */
  lemma SearchIgnoresCase(campaign: Campaign, channels: seq<Channel>, term: string)
    ensures MatchesSearch(campaign, channels, ToLower(term)) == MatchesSearch(campaign, channels, term)
  {
    assert ToLower(ToLower(term)) == ToLower(term);
  }

  /**
   * The comparator as an ascending key: ascending sorts by the column, and
   * descending by its negation, so equal values keep their order either way.
   */
  function SortKey(state: SortState): Campaign -> real {
    match state.direction
    case Asc => (c: Campaign) => FieldValue(c, state.field)
    case Desc => (c: Campaign) => -FieldValue(c, state.field)
  }

  function Matching(channels: seq<Channel>, term: string): Campaign -> bool {
    (c: Campaign) => MatchesSearch(c, channels, term)
  }

  /** `filteredAndSortedCampaigns`. */
  function FilteredAndSorted(campaigns: seq<Campaign>, channels: seq<Channel>, term: string, state: SortState): seq<Campaign> {
    SortAsc(Filter(campaigns, Matching(channels, term)), SortKey(state))
  }

  /**
   * The rows are exactly the matching campaigns, each as often as in the
   * table, ordered by the sort column in the sort direction.
   */
  lemma FilteredAndSortedRows(campaigns: seq<Campaign>, channels: seq<Channel>, term: string, state: SortState)
    ensures var rows := FilteredAndSorted(campaigns, channels, term, state);
      && (forall c :: c in rows <==> c in campaigns && MatchesSearch(c, channels, term))
      && multiset(rows) == multiset(Filter(campaigns, Matching(channels, term)))
      && (state.direction == Asc ==>
            forall i, j :: 0 <= i < j < |rows| ==> FieldValue(rows[i], state.field) <= FieldValue(rows[j], state.field))
      && (state.direction == Desc ==>
            forall i, j :: 0 <= i < j < |rows| ==> FieldValue(rows[i], state.field) >= FieldValue(rows[j], state.field))
  {
    var kept := Filter(campaigns, Matching(channels, term));
    var rows := FilteredAndSorted(campaigns, channels, term, state);
    SortAscMembers(kept, SortKey(state));
    assert SortedBy(rows, SortKey(state));
  }

  /** An empty search shows every campaign. */
  lemma EmptySearchShowsAll(campaigns: seq<Campaign>, channels: seq<Channel>, state: SortState)
    ensures multiset(FilteredAndSorted(campaigns, channels, "", state)) == multiset(campaigns)
  {
    forall i | 0 <= i < |campaigns| ensures Matching(channels, "")(campaigns[i]) {
      IncludesEmpty(ToLower(campaigns[i].name));
    }
    FilterAll(campaigns, Matching(channels, ""));
  }

  /** The ROAS column: revenue over budget, 0 without a positive budget. */
  function Roas(campaign: Campaign): (r: real)
    ensures campaign.budget > 0.0 ==> r * campaign.budget == campaign.revenue
    ensures campaign.budget <= 0.0 ==> r == 0.0
  {
    if campaign.budget > 0.0 then campaign.revenue / campaign.budget else 0.0
  }

  /** The component's state: the loaded tables, the search term and the sort. */
  class CampaignTableView {
    var campaigns: seq<Campaign>
    var channels: seq<Channel>
    var searchTerm: string
    var sort: SortState

    /** The view once `loadData` has stored both tables. */
    constructor(campaigns: seq<Campaign>, channels: seq<Channel>)
      ensures this.campaigns == campaigns && this.channels == channels
      ensures searchTerm == "" && sort == INITIAL_SORT
    {
      this.campaigns := campaigns;
      this.channels := channels;
      searchTerm := "";
      sort := INITIAL_SORT;
    }

    /** `handleSort`: only the sort state changes. */
    method HandleSort(field: SortField)
      modifies this
      ensures sort == NextSort(old(sort), field)
      ensures campaigns == old(campaigns) && channels == old(channels) && searchTerm == old(searchTerm)
    {
      if field == sort.field {
        sort := SortState(field, if sort.direction == Asc then Desc else Asc);
      } else {
        sort := SortState(field, Desc);
      }
    }

    /** The search bar's `onChange`: only the term changes. */
    method Search(term: string)
      modifies this
      ensures searchTerm == term
      ensures campaigns == old(campaigns) && channels == old(channels) && sort == old(sort)
    {
      searchTerm := term;
    }

    /** The rows on screen. */
    function Rows(): (rows: seq<Campaign>)
      reads this
      ensures forall c :: c in rows <==> c in campaigns && MatchesSearch(c, channels, searchTerm)
    {
      FilteredAndSortedRows(campaigns, channels, searchTerm, sort);
      FilteredAndSorted(campaigns, channels, searchTerm, sort)
    }
  }
}
