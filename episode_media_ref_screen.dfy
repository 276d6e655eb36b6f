/** The paginated clip and chapter list of an episode: the screen's state
    record and the transitions that update it. Fetch results are inputs. */
module EpisodeMediaRefScreens {
  import opened Js

  /** Filter and sort keys the screen compares against. */
  const ChaptersKey: string := "chapters"
  const ClipsKey: string := "clips"
  const ChronologicalKey: string := "chronological"
  const FromThisEpisodeKey: string := "from-this-episode"

  datatype MediaRef = MediaRef(id: string, title: string)

  /** The component state (labels, the selected item and the action sheet flag
      are presentational and left out). */
  datatype State = State(
    endOfResultsReached: bool,
    flatListData: seq<MediaRef>,
    flatListDataTotalCount: Option<int>,
    isLoading: bool,
    isLoadingMore: bool,
    queryFrom: string,
    queryPage: int,
    querySort: string,
    viewType: Option<string>)

  /** The navigation parameters the constructor reads. */
  datatype NavigationParams = NavigationParams(
    viewType: Option<string>,
    totalItems: Option<int>,
    initialData: Option<seq<MediaRef>>)

  /** A fetch the screen makes: the latest chapters of the episode, or a page
      of its clips in a sort order. */
  datatype Request = ChaptersRequest | MediaRefsRequest(sort: string, page: Option<int>)

  /** A fetch result: the items of one page and the total count, or an error. */
  datatype Response = Results(items: seq<MediaRef>, total: int) | Failed

  /** The `newState` that `_queryData` builds. Fields left None are not set;
      `isLoading` and `isLoadingMore` are always set to false. */
  datatype StatePatch = StatePatch(
    flatListData: Option<seq<MediaRef>>,
    endOfResultsReached: Option<bool>,
    flatListDataTotalCount: Option<int>,
    queryPage: Option<int>)

  /** The states the transitions keep: pages are counted from 1. */
  predicate ValidState(s: State) {
    s.queryPage >= 1
  }

  function InitialState(params: NavigationParams): (s: State)
    ensures ValidState(s)
    ensures s.queryPage == 1 && !s.endOfResultsReached && !s.isLoading && !s.isLoadingMore
    ensures s.flatListData == params.initialData.GetOr([])
    ensures s.flatListDataTotalCount == Some(if NumTruthy(params.totalItems) then params.totalItems.value else 0)
    ensures s.viewType == (if StrTruthy(params.viewType) then params.viewType else None)
    ensures s.queryFrom == FromThisEpisodeKey && s.querySort == ChronologicalKey
  {
    State(
      false,
      params.initialData.GetOr([]),
      Some(if NumTruthy(params.totalItems) then params.totalItems.value else 0),
      false,
      false,
      FromThisEpisodeKey,
      1,
      ChronologicalKey,
      if StrTruthy(params.viewType) then params.viewType else None)
  }

  /** The fetch `_queryData` makes for a filter key. */
  function QueryRequest(filterKey: string, querySort: string, queryPage: Option<int>): (r: Request)
    ensures r.ChaptersRequest? <==> filterKey == ChaptersKey
    ensures filterKey == ClipsKey ==> r == MediaRefsRequest(querySort, queryPage)
    ensures filterKey != ChaptersKey && filterKey != ClipsKey ==> r == MediaRefsRequest(filterKey, Some(1))
  {
    if filterKey == ChaptersKey then ChaptersRequest
    else if filterKey == ClipsKey then MediaRefsRequest(querySort, queryPage)
    else MediaRefsRequest(filterKey, Some(1))
  }

  /** What `_queryData` returns: on a result the fetched items are appended to
      the current list, the end is reached (always for chapters, otherwise
      once the list holds the reported total), and the page is the requested
      one or 1; on an error nothing but the loading flags. */
  function QueryPatch(flatListData: seq<MediaRef>, filterKey: string, queryPage: Option<int>, response: Response)
    : (p: StatePatch)
    ensures response.Failed? ==> p == StatePatch(None, None, None, None)
    ensures response.Results? ==>
      && p.flatListData.Some?
      && |p.flatListData.value| == |flatListData| + |response.items|
      && p.flatListData.value[..|flatListData|] == flatListData
      && p.flatListData.value[|flatListData|..] == response.items
      && p.flatListDataTotalCount == Some(response.total)
      && p.endOfResultsReached ==
           Some(filterKey == ChaptersKey || |flatListData| + |response.items| >= response.total)
      && p.queryPage == Some(if NumTruthy(queryPage) then queryPage.value else 1)
  {
    match response
    case Failed => StatePatch(None, None, None, None)
    case Results(items, total) =>
      var data := flatListData + items;
      StatePatch(
        Some(data),
        Some(if filterKey == ChaptersKey then true else |data| >= total),
        Some(total),
        Some(if NumTruthy(queryPage) then queryPage.value else 1))
  }

  /** `setState(newState)`: the fields the patch sets replace the state's. */
  function Apply(s: State, p: StatePatch): (t: State)
    ensures !t.isLoading && !t.isLoadingMore
    ensures t.flatListData == (if p.flatListData.Some? then p.flatListData.value else s.flatListData)
    ensures t.endOfResultsReached == (if p.endOfResultsReached.Some? then p.endOfResultsReached.value else s.endOfResultsReached)
    ensures t.flatListDataTotalCount == (if p.flatListDataTotalCount.Some? then p.flatListDataTotalCount else s.flatListDataTotalCount)
    ensures t.queryPage == (if p.queryPage.Some? then p.queryPage.value else s.queryPage)
    ensures t.queryFrom == s.queryFrom && t.querySort == s.querySort && t.viewType == s.viewType
  {
    s.(
      isLoading := false,
      isLoadingMore := false,
      flatListData := p.flatListData.GetOr(s.flatListData),
      endOfResultsReached := p.endOfResultsReached.GetOr(s.endOfResultsReached),
      flatListDataTotalCount := if p.flatListDataTotalCount.Some? then p.flatListDataTotalCount else s.flatListDataTotalCount,
      queryPage := p.queryPage.GetOr(s.queryPage))
  }

  /** `handleSelectSortItem` followed by its query. */
  function SelectSortItem(s: State, selectedKey: string, response: Response): (t: State)
    ensures selectedKey == "" ==> t == s
    ensures selectedKey != "" ==>
      t.querySort == selectedKey && t.queryPage == 1 && !t.isLoading && !t.isLoadingMore
    ensures t.viewType == s.viewType && t.queryFrom == s.queryFrom
  {
    if selectedKey == "" then s
    else
      var cleared := s.(
        endOfResultsReached := false,
        flatListData := [],
        flatListDataTotalCount := None,
        isLoading := true,
        queryPage := 1,
        querySort := selectedKey);
      Apply(cleared, QueryPatch([], selectedKey, None, response))
  }

  /** `_onEndReached` loads more only for the clips view, before the end, when
      no load is in progress and the list end is not behind the viewport. */
  function LoadMoreAllowed(s: State, distanceFromEnd: real): (allowed: bool)
    ensures s.viewType != Some(ClipsKey) ==> !allowed
    ensures s.endOfResultsReached || s.isLoadingMore ==> !allowed
    ensures distanceFromEnd <= -1.0 ==> !allowed
    ensures s.viewType == Some(ClipsKey) && !s.endOfResultsReached && !s.isLoadingMore && distanceFromEnd > -1.0
      ==> allowed
  {
    s.viewType == Some(ClipsKey) && !s.endOfResultsReached && !s.isLoadingMore && distanceFromEnd > -1.0
  }

  /** `_onEndReached` followed by its query. */
  function EndReached(s: State, distanceFromEnd: real, response: Response): (t: State)
    ensures !LoadMoreAllowed(s, distanceFromEnd) ==> t == s
    ensures s.flatListData <= t.flatListData
    ensures LoadMoreAllowed(s, distanceFromEnd) ==> !t.isLoading && !t.isLoadingMore
    ensures t.viewType == s.viewType && t.querySort == s.querySort && t.queryFrom == s.queryFrom
  {
    if LoadMoreAllowed(s, distanceFromEnd) then
      Apply(s.(isLoadingMore := true), QueryPatch(s.flatListData, ClipsKey, Some(s.queryPage + 1), response))
    else s
  }

  /** Selecting a sort: an empty key changes nothing; otherwise the list is
      replaced by the first page in the new order, or left empty with the end
      not reached when the fetch fails. */
  lemma SelectSortItemOutcome(s: State, selectedKey: string, response: Response)
    ensures selectedKey == "" ==> SelectSortItem(s, selectedKey, response) == s
    ensures selectedKey != "" ==>
      var t := SelectSortItem(s, selectedKey, response);
      && t.querySort == selectedKey && t.queryPage == 1 && !t.isLoading && !t.isLoadingMore
      && t.viewType == s.viewType
      && (response.Failed? ==> t.flatListData == [] && !t.endOfResultsReached && t.flatListDataTotalCount.None?)
      && (response.Results? ==>
            && t.flatListData == response.items
            && t.flatListDataTotalCount == Some(response.total)
            && t.endOfResultsReached == (selectedKey == ChaptersKey || |response.items| >= response.total))
  {
    if selectedKey != "" && response.Results? {
      assert [] + response.items == response.items;
    }
  }

  /** Loading more: nothing happens unless allowed; then the old list is a
      prefix of the new one and the next page is recorded, or, on an error,
      only the loading flags change. */
  lemma EndReachedOutcome(s: State, distanceFromEnd: real, response: Response)
    requires ValidState(s)
    ensures !LoadMoreAllowed(s, distanceFromEnd) ==> EndReached(s, distanceFromEnd, response) == s
    ensures LoadMoreAllowed(s, distanceFromEnd) && response.Failed? ==>
      EndReached(s, distanceFromEnd, response) == s.(isLoading := false, isLoadingMore := false)
    ensures LoadMoreAllowed(s, distanceFromEnd) && response.Results? ==>
      var t := EndReached(s, distanceFromEnd, response);
      && t.flatListData == s.flatListData + response.items
      && t.queryPage == s.queryPage + 1
      && t.flatListDataTotalCount == Some(response.total)
      && (t.endOfResultsReached <==> |t.flatListData| >= response.total)
      && !t.isLoadingMore && !t.isLoading
  {
    if LoadMoreAllowed(s, distanceFromEnd) && response.Results? {
      var p := QueryPatch(s.flatListData, ClipsKey, Some(s.queryPage + 1), response);
      assert p.flatListData.value == s.flatListData + response.items;
    }
  }

  /** Every transition keeps pages counted from 1. */
  lemma TransitionsKeepValidState(s: State, key: string, distanceFromEnd: real, response: Response)
    requires ValidState(s)
    ensures ValidState(SelectSortItem(s, key, response))
    ensures ValidState(EndReached(s, distanceFromEnd, response))
  {
  }

  /** The state after a run of end-of-list events, one per response. */
  function EndReachedRun(s: State, distances: seq<real>, responses: seq<Response>): State
    requires |distances| == |responses|
    decreases |responses|
  {
    if |responses| == 0 then s
    else EndReachedRun(EndReached(s, distances[0], responses[0]), distances[1..], responses[1..])
  }

  /** However many load-more events happen, the list only grows at its end and
      the page never goes back. */
  lemma {:induction false} EndReachedRunExtends(s: State, distances: seq<real>, responses: seq<Response>)
    requires ValidState(s) && |distances| == |responses|
    ensures var t := EndReachedRun(s, distances, responses);
      && ValidState(t)
      && |s.flatListData| <= |t.flatListData| && t.flatListData[..|s.flatListData|] == s.flatListData
      && s.queryPage <= t.queryPage
      && t.viewType == s.viewType && t.querySort == s.querySort
    decreases |responses|
  {
    if |responses| > 0 {
      var next := EndReached(s, distances[0], responses[0]);
      EndReachedOutcome(s, distances[0], responses[0]);
      EndReachedRunExtends(next, distances[1..], responses[1..]);
      var t := EndReachedRun(next, distances[1..], responses[1..]);
      assert t.flatListData[..|next.flatListData|][..|s.flatListData|] == t.flatListData[..|s.flatListData|];
    }
  }

  /** The screen component: its state and the transitions that update it. */
  class EpisodeMediaRefScreen {
    var state: State

    constructor (params: NavigationParams)
      ensures state == InitialState(params)
    {
      var viewType := if StrTruthy(params.viewType) then params.viewType else None;
      var flatListDataTotalCount := if NumTruthy(params.totalItems) then params.totalItems.value else 0;
      var existingData := params.initialData.GetOr([]);
      state := State(false, existingData, Some(flatListDataTotalCount), false, false,
                     FromThisEpisodeKey, 1, ChronologicalKey, viewType);
    }

    /** `_queryData`: the fetch it makes and the `newState` it builds from the
        fetch's response, field by field. It does not change the state. */
    method QueryData(filterKey: string, queryPage: Option<int>, response: Response)
      returns (request: Request, newState: StatePatch)
      ensures request == QueryRequest(filterKey, state.querySort, queryPage)
      ensures newState == QueryPatch(state.flatListData, filterKey, queryPage, response)
    {
      var flatListData, querySort := state.flatListData, state.querySort;
      newState := StatePatch(None, None, None, None);
      if filterKey == ChaptersKey {
        request := ChaptersRequest;
        if response.Results? {
          newState := newState.(flatListData := Some(flatListData + response.items));
          newState := newState.(endOfResultsReached := Some(true));
          newState := newState.(flatListDataTotalCount := Some(response.total));
        }
      } else if filterKey == ClipsKey {
        request := MediaRefsRequest(querySort, queryPage);
        if response.Results? {
          newState := newState.(flatListData := Some(flatListData + response.items));
          newState := newState.(endOfResultsReached := Some(|newState.flatListData.value| >= response.total));
          newState := newState.(flatListDataTotalCount := Some(response.total));
        }
      } else {
        request := MediaRefsRequest(filterKey, Some(1));
        if response.Results? {
          newState := newState.(flatListData := Some(flatListData + response.items));
          newState := newState.(endOfResultsReached := Some(|newState.flatListData.value| >= response.total));
          newState := newState.(flatListDataTotalCount := Some(response.total));
        }
      }
      if response.Results? {
        newState := newState.(queryPage := Some(if NumTruthy(queryPage) then queryPage.value else 1));
      }
    }

    /** `handleSelectSortItem`: clear the list for the new sort, then query. */
    method HandleSelectSortItem(selectedKey: string, response: Response) returns (request: Option<Request>)
      modifies this
      ensures state == SelectSortItem(old(state), selectedKey, response)
      ensures request == if selectedKey == "" then None else Some(QueryRequest(selectedKey, selectedKey, None))
    {
      if selectedKey == "" {
        return None;
      }
      state := state.(
        endOfResultsReached := false,
        flatListData := [],
        flatListDataTotalCount := None,
        isLoading := true,
        queryPage := 1,
        querySort := selectedKey);
      var r, newState := QueryData(selectedKey, None, response);
      state := Apply(state, newState);
      request := Some(r);
    }

    /** `_onEndReached`: when loading more is allowed, mark the load and query
        the next page of clips. */
    method OnEndReached(distanceFromEnd: real, response: Response) returns (request: Option<Request>)
      modifies this
      ensures state == EndReached(old(state), distanceFromEnd, response)
      ensures request.Some? <==> LoadMoreAllowed(old(state), distanceFromEnd)
      ensures request.Some? ==> request.value == MediaRefsRequest(old(state).querySort, Some(old(state).queryPage + 1))
    {
      request := None;
      var viewType, queryPage := state.viewType, state.queryPage;
      if viewType == Some(ClipsKey) && !state.endOfResultsReached && !state.isLoadingMore {
        if distanceFromEnd > -1.0 {
          state := state.(isLoadingMore := true);
          var r, newState := QueryData(ClipsKey, Some(queryPage + 1), response);
          state := Apply(state, newState);
          request := Some(r);
        }
      }
    }
  }
}
