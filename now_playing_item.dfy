/** Persistence of the now-playing item: the local storage key, the PATCH body
    sent to the server, the local/server dispatch, and the enriched lookup
    through history, queue and downloads. */
module NowPlayingItems {
  import opened Js
  import opened Seqs

  /** The storage key of the now-playing item. */
  const NowPlayingItemKey: string := "NOW_PLAYING_ITEM"

  datatype LiveItem = LiveItem(start: string, end: string, status: string)

  datatype NowPlayingItem = NowPlayingItem(
    clipId: Option<string>,
    episodeId: Option<string>,
    addByRSSPodcastFeedUrl: Option<string>,
    liveItem: Option<LiveItem>,
    userPlaybackPosition: real)

  /** A stored value: a serialised item, or text that does not parse. */
  datatype StoredValue = Serialized(item: NowPlayingItem) | Unparseable

  type Storage = map<string, StoredValue>

  /** The item names a clip or an episode. */
  predicate HasId(item: NowPlayingItem) {
    StrTruthy(item.clipId) || StrTruthy(item.episodeId)
  }

  /** `getNowPlayingItemLocally`: the stored item when it names a clip or an
      episode; null when nothing is stored, it does not parse, or it has no id. */
  function GetNowPlayingItemLocally(storage: Storage): (r: Option<NowPlayingItem>)
    ensures r.Some? <==>
      NowPlayingItemKey in storage && storage[NowPlayingItemKey].Serialized? &&
      HasId(storage[NowPlayingItemKey].item)
    ensures r.Some? ==> r.value == storage[NowPlayingItemKey].item
  {
    if NowPlayingItemKey !in storage then None
    else match storage[NowPlayingItemKey]
      case Unparseable => None
      case Serialized(item) => if HasId(item) then Some(item) else None
  }

  /** `(playbackPosition && Math.floor(playbackPosition)) || 0`: the position
      rounded down to whole seconds. */
  function StoredPosition(playbackPosition: real): (p: int)
    ensures p as real <= playbackPosition < p as real + 1.0
  {
    if playbackPosition == 0.0 then 0
    else if playbackPosition.Floor == 0 then 0
    else playbackPosition.Floor
  }

  /** Rounding twice is rounding once. */
  lemma StoredPositionIdempotent(playbackPosition: real)
    ensures StoredPosition(StoredPosition(playbackPosition) as real) == StoredPosition(playbackPosition)
  {
  }

  /** The item as `setNowPlayingItemLocally` leaves it: its position rounded down. */
  function WithPosition(item: NowPlayingItem, playbackPosition: real): (r: NowPlayingItem)
    ensures r.userPlaybackPosition == r.userPlaybackPosition.Floor as real
    ensures r.userPlaybackPosition <= playbackPosition < r.userPlaybackPosition + 1.0
    ensures r.(userPlaybackPosition := item.userPlaybackPosition) == item
  {
    item.(userPlaybackPosition := StoredPosition(playbackPosition) as real)
  }

  /** The storage after `setNowPlayingItemLocally`. */
  function SetLocally(storage: Storage, item: Option<NowPlayingItem>, playbackPosition: real): (r: Storage)
    ensures item.None? ==> r == storage
    ensures item.Some? ==>
      NowPlayingItemKey in r && r[NowPlayingItemKey] == Serialized(WithPosition(item.value, playbackPosition))
    ensures r.Keys == if item.Some? then storage.Keys + {NowPlayingItemKey} else storage.Keys
    ensures forall k :: k in storage && k != NowPlayingItemKey ==> k in r && r[k] == storage[k]
  {
    if item.Some? then storage[NowPlayingItemKey := Serialized(WithPosition(item.value, playbackPosition))]
    else storage
  }

  /** Writing an item that names a clip or an episode and reading it back gives
      that item with its position rounded down; writing null changes nothing. */
  lemma LocalRoundTrip(storage: Storage, item: Option<NowPlayingItem>, playbackPosition: real)
    ensures item.Some? && HasId(item.value) ==>
      GetNowPlayingItemLocally(SetLocally(storage, item, playbackPosition)) ==
        Some(item.value.(userPlaybackPosition := StoredPosition(playbackPosition) as real))
    ensures item.Some? && !HasId(item.value) ==>
      GetNowPlayingItemLocally(SetLocally(storage, item, playbackPosition)).None?
    ensures item.None? ==> SetLocally(storage, item, playbackPosition) == storage
  {
  }

  /** The body of the PATCH request. */
  datatype PatchBody = PatchBody(
    clipId: Option<string>,
    episodeId: Option<string>,
    liveItem: Option<LiveItem>,
    userPlaybackPosition: int)

  /** `setNowPlayingItemOnServer` returns early for these items. */
  function ServerWriteSkipped(item: Option<NowPlayingItem>): (skipped: bool)
    ensures item.None? ==> skipped
    ensures item.Some? && !HasId(item.value) ==> skipped
    ensures item.Some? && StrTruthy(item.value.addByRSSPodcastFeedUrl) ==> skipped
    ensures !skipped ==> item.Some? && HasId(item.value) && !StrTruthy(item.value.addByRSSPodcastFeedUrl)
  {
    item.None? || !HasId(item.value) || StrTruthy(item.value.addByRSSPodcastFeedUrl)
  }

  /** The PATCH body: exactly one of clipId and episodeId is non-null, the clip
      winning; liveItem only when there is one; the position rounded down. */
  function PatchBodyFor(item: NowPlayingItem, playbackPosition: real): (b: PatchBody)
    requires HasId(item)
    ensures b.clipId.Some? != b.episodeId.Some?
    ensures StrTruthy(item.clipId) ==> b.clipId == item.clipId
    ensures !StrTruthy(item.clipId) ==> b.episodeId == item.episodeId && StrTruthy(b.episodeId)
    ensures b.liveItem == item.liveItem
    ensures b.userPlaybackPosition as real <= playbackPosition < b.userPlaybackPosition as real + 1.0
  {
    PatchBody(
      if StrTruthy(item.clipId) then item.clipId else None,
      if !StrTruthy(item.clipId) then item.episodeId else None,
      if item.liveItem.Some? then item.liveItem else None,
      StoredPosition(playbackPosition))
  }

  /** `setNowPlayingItem` goes to the server when server data is in use and the
      item is not one added by RSS feed URL. */
  function GoesToServer(item: Option<NowPlayingItem>, useServerData: bool): (server: bool)
    ensures !useServerData ==> !server
    ensures item.Some? && StrTruthy(item.value.addByRSSPodcastFeedUrl) ==> !server
    ensures useServerData && (item.None? || !StrTruthy(item.value.addByRSSPodcastFeedUrl)) ==> server
  {
    useServerData && !(item.Some? && StrTruthy(item.value.addByRSSPodcastFeedUrl))
  }

  /** The local storage and the PATCH requests sent, in order. */
  class NowPlayingItemStore {
    var storage: Storage
    var patchRequests: seq<PatchBody>

    constructor (storage: Storage)
      ensures this.storage == storage && patchRequests == []
    {
      this.storage := storage;
      patchRequests := [];
    }

    /** `setNowPlayingItemLocally`; `updated` is the caller's item after the
        call, whose position the source rounds in place. */
    method SetNowPlayingItemLocally(item: Option<NowPlayingItem>, playbackPosition: real)
      returns (updated: Option<NowPlayingItem>)
      modifies this
      ensures updated == if item.Some? then Some(WithPosition(item.value, playbackPosition)) else None
      ensures storage == SetLocally(old(storage), item, playbackPosition)
      ensures patchRequests == old(patchRequests)
    {
      updated := item;
      if item.Some? {
        updated := Some(item.value.(userPlaybackPosition := StoredPosition(playbackPosition) as real));
        storage := storage[NowPlayingItemKey := Serialized(updated.value)];
      }
    }

    /** `setNowPlayingItemOnServer`: nothing for a null item, an item with no
        id, or an item added by RSS feed URL; otherwise a local write and one
        PATCH request. */
    method SetNowPlayingItemOnServer(item: Option<NowPlayingItem>, playbackPosition: real)
      returns (updated: Option<NowPlayingItem>)
      modifies this
      ensures ServerWriteSkipped(item) ==>
        updated == item && storage == old(storage) && patchRequests == old(patchRequests)
      ensures !ServerWriteSkipped(item) ==>
        && updated == Some(WithPosition(item.value, playbackPosition))
        && storage == SetLocally(old(storage), item, playbackPosition)
        && patchRequests == old(patchRequests) + [PatchBodyFor(item.value, playbackPosition)]
    {
      if ServerWriteSkipped(item) {
        return item;
      }
      var position := StoredPosition(playbackPosition);
      updated := SetNowPlayingItemLocally(item, position as real);
      var i := item.value;
      var body := PatchBody(
        if StrTruthy(i.clipId) then i.clipId else None,
        if !StrTruthy(i.clipId) then i.episodeId else None,
        if i.liveItem.Some? then i.liveItem else None,
        position);
      patchRequests := patchRequests + [body];
    }

    /** `setNowPlayingItem`; whether server data is in use is an input. */
    method SetNowPlayingItem(item: Option<NowPlayingItem>, playbackPosition: real, useServerData: bool)
      returns (updated: Option<NowPlayingItem>)
      modifies this
      ensures !GoesToServer(item, useServerData) ==>
        storage == SetLocally(old(storage), item, playbackPosition) && patchRequests == old(patchRequests)
      ensures GoesToServer(item, useServerData) && ServerWriteSkipped(item) ==>
        storage == old(storage) && patchRequests == old(patchRequests)
      ensures GoesToServer(item, useServerData) && !ServerWriteSkipped(item) ==>
        && storage == SetLocally(old(storage), item, playbackPosition)
        && patchRequests == old(patchRequests) + [PatchBodyFor(item.value, playbackPosition)]
      ensures updated == if item.Some? && (!GoesToServer(item, useServerData) || !ServerWriteSkipped(item))
                         then Some(WithPosition(item.value, playbackPosition)) else item
    {
      if GoesToServer(item, useServerData) {
        updated := SetNowPlayingItemOnServer(item, playbackPosition);
      } else {
        updated := SetNowPlayingItemLocally(item, playbackPosition);
      }
    }
  }

  /** A downloaded episode as the download storage returns it. */
  datatype DownloadedEpisode = DownloadedEpisode(id: string, userPlaybackPosition: real)

  /** Where the enriched lookup found the item. */
  datatype EnrichedItem =
    | FromHistory(item: NowPlayingItem)
    | FromQueue(item: NowPlayingItem)
    | FromDownloads(episode: DownloadedEpisode)

  /** The lookup predicate applied to each stored item; the id comparison
      itself belongs to a shared library and is a parameter here. */
  function MatchesId(episodeId: string, idMatches: (string, Option<string>, Option<string>) -> bool)
    : NowPlayingItem -> bool
  {
    (x: NowPlayingItem) => idMatches(episodeId, x.clipId, x.episodeId)
  }

  /** `getEnrichedNowPlayingItemFromLocalStorage`: null for an empty id;
      otherwise the first match in history, else the first match in the queue,
      else the downloaded episode, else nothing. The three stores' contents
      are inputs. */
  function GetEnrichedNowPlayingItemFromLocalStorage(
    episodeId: string,
    historyItems: seq<NowPlayingItem>,
    queueItems: seq<NowPlayingItem>,
    downloaded: Option<DownloadedEpisode>,
    idMatches: (string, Option<string>, Option<string>) -> bool): (r: Option<EnrichedItem>)
    ensures episodeId == "" ==> r.None?
    ensures r.Some? && r.value.FromHistory? <==>
      episodeId != "" && AnyMatch(historyItems, MatchesId(episodeId, idMatches))
    ensures r.Some? && r.value.FromHistory? ==>
      IsFirstMatch(historyItems, MatchesId(episodeId, idMatches), r.value.item)
    ensures r.Some? && r.value.FromQueue? <==>
      episodeId != "" && !AnyMatch(historyItems, MatchesId(episodeId, idMatches)) &&
      AnyMatch(queueItems, MatchesId(episodeId, idMatches))
    ensures r.Some? && r.value.FromQueue? ==>
      IsFirstMatch(queueItems, MatchesId(episodeId, idMatches), r.value.item)
    ensures r.Some? && r.value.FromDownloads? <==>
      episodeId != "" && !AnyMatch(historyItems, MatchesId(episodeId, idMatches)) &&
      !AnyMatch(queueItems, MatchesId(episodeId, idMatches)) && downloaded.Some?
    ensures r.Some? && r.value.FromDownloads? ==> r.value.episode == downloaded.value
  {
    if episodeId == "" then None
    else
      var p := MatchesId(episodeId, idMatches);
      var fromHistory := Find(historyItems, p);
      if fromHistory.Some? then Some(FromHistory(fromHistory.value))
      else
        var queueItemIndex := FindIndex(queueItems, p);
        if queueItemIndex > -1 then Some(FromQueue(queueItems[queueItemIndex]))
        else if downloaded.Some? then Some(FromDownloads(downloaded.value))
        else None
  }
}
