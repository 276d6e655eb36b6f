/** The podcast service: the local subscription toggle, and the query
    parameters sent when listing or searching podcasts. */
module Podcasts {
  import opened Js
  import opened Seqs

  /** A value of a query-string parameter. */
  datatype QueryValue = Text(text: string) | Number(number: int) | Flag(flag: bool)

  type Query = map<string, QueryValue>

  const DefaultSort: string := "top-past-week"
  const AlphabeticalSort: string := "alphabetical"

  /** The fields of the query object `getPodcasts` reads. */
  datatype PodcastsQueryInput = PodcastsQueryInput(
    includeAuthors: bool,
    includeCategories: bool,
    page: Option<int>,
    sort: Option<string>,
    searchAuthor: Option<string>,
    searchTitle: Option<string>,
    categories: Option<string>,
    podcastIds: Option<seq<string>>)

  /** A request to the `/podcast` endpoint. */
  datatype PodcastsRequest = PodcastsRequest(query: Query, nsfwMode: bool)

  datatype Podcast = Podcast(id: string, title: string)

  /** `ids.join(sep)`. */
  function Join(ids: seq<string>, sep: string): (r: string)
    ensures |ids| == 0 ==> r == ""
    ensures |ids| == 1 ==> r == ids[0]
    ensures |ids| > 0 ==> ids[0] <= r
  {
    if |ids| == 0 then ""
    else if |ids| == 1 then ids[0]
    else ids[0] + sep + Join(ids[1..], sep)
  }

  /** Joining one more id appends the separator and that id: the ids appear in
      order, one separator between each neighbouring pair. */
  lemma {:induction false} JoinAppend(ids: seq<string>, id: string, sep: string)
    requires |ids| > 0
    ensures Join(ids + [id], sep) == Join(ids, sep) + sep + id
    decreases |ids|
  {
    var longer := ids + [id];
    if |ids| > 1 {
      assert longer[1..] == ids[1..] + [id];
      JoinAppend(ids[1..], id, sep);
      calc {
        Join(longer, sep);
        ids[0] + sep + Join(ids[1..] + [id], sep);
        ids[0] + sep + (Join(ids[1..], sep) + sep + id);
        (ids[0] + sep + Join(ids[1..], sep)) + sep + id;
      }
    } else {
      assert longer[1..] == [id];
    }
  }

  /** The spread `...(present ? { key: value } : {})`. */
  function AddIf(m: Query, present: bool, key: string, value: QueryValue): Query {
    if present then m[key := value] else m
  }

  /** The `filteredQuery` that `getPodcasts` sends: page and sort default to 1
      and 'top-past-week', the optional fields appear only when truthy, and
      `categories` takes precedence over `podcastIds`. */
  function PodcastsQuery(query: PodcastsQueryInput): (r: Query)
    ensures "page" in r && r["page"] == Number(if NumTruthy(query.page) then query.page.value else 1)
    ensures "sort" in r && r["sort"] == Text(if StrTruthy(query.sort) then query.sort.value else DefaultSort)
    ensures ("includeAuthors" in r <==> query.includeAuthors) &&
            ("includeCategories" in r <==> query.includeCategories)
    ensures ("searchAuthor" in r <==> StrTruthy(query.searchAuthor)) &&
            ("searchTitle" in r <==> StrTruthy(query.searchTitle))
    ensures "searchAuthor" in r ==> r["searchAuthor"] == Text(query.searchAuthor.value)
    ensures "searchTitle" in r ==> r["searchTitle"] == Text(query.searchTitle.value)
    ensures "categories" in r <==> StrTruthy(query.categories)
    ensures "categories" in r ==> r["categories"] == Text(query.categories.value)
    ensures "podcastId" in r <==> !StrTruthy(query.categories) && query.podcastIds.Some?
    ensures "podcastId" in r ==> r["podcastId"] == Text(Join(query.podcastIds.value, ","))
    ensures r.Keys <= {"includeAuthors", "includeCategories", "page", "sort", "searchAuthor",
                       "searchTitle", "categories", "podcastId"}
  {
    var base: Query := map[
      "page" := Number(if NumTruthy(query.page) then query.page.value else 1),
      "sort" := Text(if StrTruthy(query.sort) then query.sort.value else DefaultSort)];
    var withAuthors := AddIf(base, query.includeAuthors, "includeAuthors", Flag(true));
    var withCategories := AddIf(withAuthors, query.includeCategories, "includeCategories", Flag(true));
    var withSearchAuthor := AddIf(withCategories, StrTruthy(query.searchAuthor), "searchAuthor", Text(query.searchAuthor.GetOr("")));
    var filteredQuery := AddIf(withSearchAuthor, StrTruthy(query.searchTitle), "searchTitle", Text(query.searchTitle.GetOr("")));
    if StrTruthy(query.categories) then
      filteredQuery["categories" := Text(query.categories.value)]
    else if query.podcastIds.Some? then
      filteredQuery["podcastId" := Text(Join(query.podcastIds.value, ","))]
    else
      filteredQuery
  }

  /** The query `getSubscribedPodcasts` passes to `getPodcasts`. */
  function SubscribedPodcastsQuery(subscribedPodcastIds: seq<string>): (q: PodcastsQueryInput)
    ensures q.podcastIds == Some(subscribedPodcastIds) && q.sort == Some(AlphabeticalSort)
    ensures q.page.None? && q.categories.None? && q.searchAuthor.None? && q.searchTitle.None?
    ensures !q.includeAuthors && !q.includeCategories
  {
    PodcastsQueryInput(false, false, None, Some(AlphabeticalSort), None, None, None, Some(subscribedPodcastIds))
  }

  /** The subscribed-podcasts request asks for the first page, alphabetically,
      of exactly the subscribed ids. */
  lemma SubscribedPodcastsRequestShape(ids: seq<string>)
    ensures PodcastsQuery(SubscribedPodcastsQuery(ids)) ==
      map["page" := Number(1), "sort" := Text(AlphabeticalSort), "podcastId" := Text(Join(ids, ","))]
  {
    var r := PodcastsQuery(SubscribedPodcastsQuery(ids));
    var expected := map["page" := Number(1), "sort" := Text(AlphabeticalSort), "podcastId" := Text(Join(ids, ","))];
    assert r.Keys == expected.Keys;
  }

  /** The query `searchPodcasts` sends: always alphabetical and page 1, with a
      title and an author only when given. */
  function SearchPodcastsQuery(title: Option<string>, author: Option<string>): (r: Query)
    ensures "sort" in r && r["sort"] == Text(AlphabeticalSort)
    ensures "page" in r && r["page"] == Number(1)
    ensures "title" in r <==> StrTruthy(title)
    ensures "title" in r ==> r["title"] == Text(title.value)
    ensures "author" in r <==> StrTruthy(author)
    ensures "author" in r ==> r["author"] == Text(author.value)
    ensures r.Keys <= {"sort", "title", "author", "page"}
  {
    var base: Query := map["sort" := Text(AlphabeticalSort), "page" := Number(1)];
    var withTitle := AddIf(base, StrTruthy(title), "title", Text(title.GetOr("")));
    AddIf(withTitle, StrTruthy(author), "author", Text(author.GetOr("")))
  }

  /** The subscription list after toggling `id`: its first occurrence is
      removed when present, otherwise it is appended. */
  function Toggle(items: seq<string>, id: string): (r: seq<string>)
    ensures id !in items ==> r == items + [id]
    ensures id in items ==>
      var i := IndexOf(items, id);
      items[i] == id && id !in items[..i] && r == RemoveAt(items, i)
  {
    var index := IndexOf(items, id);
    if index > -1 then RemoveAt(items, index) else items + [id]
  }

  lemma RemoveAtKeepsNoDuplicates(items: seq<string>, i: nat)
    requires i < |items| && NoDuplicates(items)
    ensures NoDuplicates(RemoveAt(items, i))
  {
    var r := RemoveAt(items, i);
    forall j, k | 0 <= j < k < |r| ensures r[j] != r[k] {
      var j' := if j < i then j else j + 1;
      var k' := if k < i then k else k + 1;
      assert r[j] == items[j'] && r[k] == items[k'];
    }
  }

  /** On a list without duplicates a toggle flips the id's membership and
      keeps the list free of duplicates. */
  lemma ToggleFlipsMembership(items: seq<string>, id: string)
    requires NoDuplicates(items)
    ensures id in Toggle(items, id) <==> id !in items
    ensures NoDuplicates(Toggle(items, id))
  {
    var r := Toggle(items, id);
    if id in items {
      var i := IndexOf(items, id);
      forall j | 0 <= j < |r| ensures r[j] != id {
        if j < i { assert r[j] == items[j]; } else { assert r[j] == items[j + 1]; }
      }
      RemoveAtKeepsNoDuplicates(items, i);
    } else {
      assert r[|items|] == id;
    }
  }

  /** Every other id keeps its relative order through a toggle. */
  lemma {:induction false} ToggleKeepsOthersInOrder(items: seq<string>, id: string)
    ensures Without(Toggle(items, id), id) == Without(items, id)
  {
    if id in items {
      var i := IndexOf(items, id);
      assert items == items[..i] + [id] + items[i + 1..];
      WithoutConcat(items[..i] + [id], items[i + 1..], id);
      WithoutConcat(items[..i], [id], id);
      WithoutConcat(items[..i], items[i + 1..], id);
    } else {
      WithoutConcat(items, [id], id);
    }
  }

  /** Subscribing to an absent id and toggling again restores the list. */
  lemma ToggleTwiceRestores(items: seq<string>, id: string)
    requires id !in items
    ensures Toggle(Toggle(items, id), id) == items
  {
    var once := items + [id];
    assert IndexOf(once, id) == |items| by {
      assert once[..|items|] == items;
    }
    assert RemoveAt(once, |items|) == items;
  }

  /** The two storage keys the service keeps: the subscribed ids and the last
      fetched subscribed podcasts. A missing key is None. */
  class PodcastStorage {
    var subscribedPodcastIds: Option<seq<string>>
    var subscribedPodcasts: Option<seq<Podcast>>

    constructor (ids: Option<seq<string>>, podcasts: Option<seq<Podcast>>)
      ensures subscribedPodcastIds == ids && subscribedPodcasts == podcasts
    {
      subscribedPodcastIds := ids;
      subscribedPodcasts := podcasts;
    }

    /** `toggleSubscribeToPodcastLocally`: a missing list counts as empty; the
        toggled list is written back and returned. */
    method ToggleSubscribeToPodcastLocally(id: string) returns (items: seq<string>)
      modifies this
      ensures items == Toggle(old(subscribedPodcastIds).GetOr([]), id)
      ensures subscribedPodcastIds == Some(items)
      ensures subscribedPodcasts == old(subscribedPodcasts)
    {
      items := [];
      if subscribedPodcastIds.Some? {
        items := subscribedPodcastIds.value;
      }
      var index := IndexOf(items, id);
      if index > -1 {
        items := RemoveAt(items, index);
      } else {
        items := items + [id];
      }
      subscribedPodcastIds := Some(items);
    }

    /** `getSubscribedPodcasts`. Whether the network is reachable and the first
        element of the response (None when it is undefined) are inputs; the
        request made, if any, is returned beside the result. */
    method GetSubscribedPodcasts(ids: seq<string>, isConnected: bool, fetched: Option<seq<Podcast>>)
      returns (request: Option<PodcastsRequest>, result: Option<seq<Podcast>>)
      modifies this
      ensures |ids| == 0 ==> request.None? && result == Some([]) && subscribedPodcasts == old(subscribedPodcasts)
      ensures |ids| > 0 && isConnected ==>
        && request == Some(PodcastsRequest(PodcastsQuery(SubscribedPodcastsQuery(ids)), true))
        && result == fetched
        && subscribedPodcasts == Some(fetched.GetOr([]))
      ensures |ids| > 0 && !isConnected ==>
        request.None? && result == Some(old(subscribedPodcasts).GetOr([])) &&
        subscribedPodcasts == old(subscribedPodcasts)
      ensures subscribedPodcastIds == old(subscribedPodcastIds)
    {
      if |ids| < 1 {
        return None, Some([]);
      }
      var query := SubscribedPodcastsQuery(ids);
      if isConnected {
        request := Some(PodcastsRequest(PodcastsQuery(query), true));
        subscribedPodcasts := Some(fetched.GetOr([]));
        result := fetched;
      } else {
        request := None;
        result := Some(subscribedPodcasts.GetOr([]));
      }
    }
  }
}
