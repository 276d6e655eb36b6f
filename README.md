# Podverse mobile: streaming value, subscriptions, now-playing persistence and list state

A Dafny model of the parts of the Podverse React Native client that have behaviour worth stating:

- **Streaming value timer** (`src/services/v4v/v4vStreaming.ts`). Every timer tick, while audio plays, two counters gain one playback second. On iOS the second is divided by the playback speed. When the accumulator reaches 60 the minute handler runs. It clears the accumulator and may save a streaming payment to the transaction queue. It also reports whether the queue counter has reached 300, and clears that counter when it has. A true report makes the tick process the queue, and a banner is raised when that flush sent something. The module state is the class `ValueStreamingTimer`. The calls into the transaction-queue service are recorded, in order, in its `effects` field.
- **Podcast service** (`src/services/podcast.ts`). The local subscription toggle removes the first occurrence of an id or appends it. The query builders apply defaults and a precedence rule (`categories` over `podcastIds`). `getSubscribedPodcasts` has an empty-list guard and an offline fallback.
- **Now-playing item** (`src/services/userNowPlayingItem.ts`). Local storage is a map from key to stored value. The local read checks that the item has an id. Writes round the position down. The PATCH body carries exactly one of clipId and episodeId. There are early-exit guards, and a local/server dispatch. The enriched lookup tries history, then the queue, then downloads.
- **Recipients view** (`src/components/V4VRecipientsInfoView.tsx`). Each recipient is matched to its first route error. The view also decides the total label, the parsed total and the fees header.
- **Episode clips screen** (`src/screens/EpisodeMediaRefScreen.tsx`). This covers the component's `State` record, its initial value, the patch `_queryData` builds, and the sort-selection and load-more transitions. Fetch results are inputs.

Modules: `Js` (absent values and JavaScript truthiness), `Seqs` (`findIndex`, `find`, `indexOf`, `splice`), `Decimal` (`parseInt(s, 10)`), `V4VTypes`, then one module per source file. Clocks, the player, the network, storage and the HTTP client are parameters or fields.

The five-minute flush counter is examined only inside the minute handler (`v4vStreaming.ts:39`), so a flush happens only at a minute boundary: see `TickCounters` and `IntegerTickFiring`.

Two consequences of JavaScript truthiness are stated in the model:
- An episode whose `episodeValue` is an empty array hides the podcast's value tags, because `[]` is truthy (`EmptyEpisodeValueHidesPodcastValue`).
- `(p && Math.floor(p)) || 0` is just `floor(p)` (`StoredPosition`).

## Model

| member | source | states |
|---|---|---|
| `Seqs.FindIndex` | src/services/userNowPlayingItem.ts:152-155 | the index found is the first element satisfying the predicate, and -1 exactly when none does |
| `Seqs.Find` | src/components/V4VRecipientsInfoView.tsx:38-47 | `find` returns nothing exactly when no element matches, else the first match |
| `Seqs.IndexOf` | src/services/podcast.ts:84 | `indexOf` is -1 exactly when the id is absent, else the first index holding it |
| `Seqs.RemoveAt` | src/services/podcast.ts:86 | `splice(i, 1)` drops exactly the element at i: one element fewer, those before i unchanged, those after shifted down by one |
| `Decimal.ParseInt` | src/components/V4VRecipientsInfoView.tsx:34 | `parseInt(s, 10)` is NaN exactly when no digit follows the optional white space and sign |
| `Decimal.ParseIntRoundTrip` | src/components/V4VRecipientsInfoView.tsx:34 | parsing the decimal text of any integer gives that integer back |
| `V4VStreaming.Increment` | src/services/v4v/v4vStreaming.ts:15-24 | a tick adds a positive amount: 1 off iOS, and on iOS the amount that times the speed is 1 |
| `V4VStreaming.SelectValueTags` | src/services/v4v/v4vStreaming.ts:30 | the episode's value tags whenever it has an array, even an empty one; the podcast's, or none, only when the episode has no value array |
| `V4VStreaming.TickCounters` | src/services/v4v/v4vStreaming.ts:15-69 | a paused tick changes nothing; the minute handler runs exactly when the incremented accumulator reaches 60 and then clears it; a flush is asked for only at a minute with the queue counter at 300 or more, which clears it; otherwise both counters gain the same increment; the accumulator stays in [0, 60) |
| `V4VStreaming.StreamingPaymentFor` | src/services/v4v/v4vStreaming.ts:30-51 | a payment is saved exactly when the selected value tags are non-empty, the streaming amount is truthy and the provider key is truthy, and it carries those three values |
| `V4VStreaming.SaveEffects` | src/services/v4v/v4vStreaming.ts:44-51 | the minute handler makes at most one save call, exactly when there are value tags, a truthy streaming amount and a truthy provider key, and it saves the selected tags |
| `V4VStreaming.EmptyEpisodeValueHidesPodcastValue` | src/services/v4v/v4vStreaming.ts:30 | an empty episode value array blocks the fall-back to the podcast's tags, so no payment is saved |
| `V4VStreaming.BannerFor` | src/services/v4v/v4vStreaming.ts:71-84 | a banner is raised exactly when the flush sent at least one transaction with a positive total, and it carries errors, transactions and total |
| `V4VStreaming.IntegerTickSchedule` | src/services/v4v/v4vStreaming.ts:12-42 | off iOS, after n playing ticks the accumulator is n mod 60 and the queue counter n mod 300 |
| `V4VStreaming.IntegerTickFiring` | src/services/v4v/v4vStreaming.ts:36-67 | off iOS the minute handler runs exactly on every 60th playing tick and a flush is requested exactly on every 300th |
| `V4VStreaming.DoubleSpeedHalfSeconds` | src/services/v4v/v4vStreaming.ts:16-19 | on iOS at double speed each of the first 119 ticks adds half a second to both counters |
| `V4VStreaming.DoubleSpeedFirstMinute` | src/services/v4v/v4vStreaming.ts:16-67 | on iOS at double speed the first minute handler runs on the 120th playing tick and not on the 119th |
| `V4VStreaming.ValueStreamingTimer.constructor` | src/services/v4v/v4vStreaming.ts:12-13 | both counters start at zero, with no queue calls and no banner |
| `V4VStreaming.ValueStreamingTimer.IncrementStreamingIntervalCount` | src/services/v4v/v4vStreaming.ts:15-24 | both counters gain the same increment and nothing else changes |
| `V4VStreaming.ValueStreamingTimer.HandleValueStreamingMinutePassed` | src/services/v4v/v4vStreaming.ts:26-54 | the accumulator is cleared; the result is whether the queue counter had reached 300, and only then is it cleared; the payment, if any, is saved to the queue |
| `V4VStreaming.ValueStreamingTimer.HandleValueStreamingTimerIncrement` | src/services/v4v/v4vStreaming.ts:56-87 | with streaming off nothing changes; otherwise the counters follow `TickCounters`, the queue calls are the minute's save then the flush, the banner is set only by a flush that sent something, and the accumulator stays below 60 |
| `Podcasts.PodcastsQuery` | src/services/podcast.ts:15-29 | page defaults to 1 and sort to 'top-past-week'; each optional field is present exactly when truthy; `categories` wins over `podcastIds`, which are joined with ',' into `podcastId`; no other key appears |
| `Podcasts.Join` | src/services/podcast.ts:28 | `join` of no ids is empty and of one id is that id; the result starts with the first id |
| `Podcasts.JoinAppend` | src/services/podcast.ts:28 | joining one more id appends the separator and that id, so the ids appear in order with one separator between neighbours |
| `Podcasts.SubscribedPodcastsQuery` | src/services/podcast.ts:41-44 | the query `getSubscribedPodcasts` builds holds only the subscribed ids and the alphabetical sort: no page, categories, search terms or include flags |
| `Podcasts.SubscribedPodcastsRequestShape` | src/services/podcast.ts:39-48 | the subscribed-podcasts request is exactly page 1, sort 'alphabetical' and the joined ids |
| `Podcasts.SearchPodcastsQuery` | src/services/podcast.ts:58-67 | the search query always has sort 'alphabetical' and page 1, with title and author only when truthy |
| `Podcasts.Toggle` | src/services/podcast.ts:84-89 | an absent id is appended at the end; a present id loses its first occurrence |
| `Podcasts.ToggleFlipsMembership` | src/services/podcast.ts:84-89 | on a list without duplicates the id's membership is flipped and the list stays free of duplicates |
| `Podcasts.ToggleKeepsOthersInOrder` | src/services/podcast.ts:84-89 | every other id keeps its relative order |
| `Podcasts.ToggleTwiceRestores` | src/services/podcast.ts:84-89 | toggling an absent id twice gives back the original list |
| `Podcasts.PodcastStorage.ToggleSubscribeToPodcastLocally` | src/services/podcast.ts:76-93 | a missing stored list counts as empty; the toggled list is both written back and returned |
| `Podcasts.PodcastStorage.GetSubscribedPodcasts` | src/services/podcast.ts:39-56 | an empty id list returns [] without a request; online it requests the alphabetical query with nsfw mode and caches the first element or []; offline it returns the cache or [] |
| `NowPlayingItems.GetNowPlayingItemLocally` | src/services/userNowPlayingItem.ts:30-40 | the stored item is returned exactly when it exists, parses and has a clipId or an episodeId; otherwise null |
| `NowPlayingItems.StoredPosition` | src/services/userNowPlayingItem.ts:73 | the stored position is the playback position rounded down |
| `NowPlayingItems.WithPosition` | src/services/userNowPlayingItem.ts:73 | the item's position becomes a whole number of seconds within one second below the playback position; every other field is unchanged |
| `NowPlayingItems.SetLocally` | src/services/userNowPlayingItem.ts:71-76 | a null item leaves storage unchanged; otherwise the now-playing key holds the rounded item, and every other key keeps its value |
| `NowPlayingItems.LocalRoundTrip` | src/services/userNowPlayingItem.ts:30-76 | writing an item with an id and reading it back gives the item with its position rounded down; a write of an item without an id reads back as null; writing null changes nothing |
| `NowPlayingItems.PatchBodyFor` | src/services/userNowPlayingItem.ts:83-94 | exactly one of clipId and episodeId is non-null, the clip winning; liveItem only when present; the position is rounded down |
| `NowPlayingItems.ServerWriteSkipped` | src/services/userNowPlayingItem.ts:79 | the server write returns early for a null item, an item with neither a truthy clipId nor episodeId, and an item added by RSS feed URL, and for no other item |
| `NowPlayingItems.GoesToServer` | src/services/userNowPlayingItem.ts:20 | the server path is taken exactly when server data is in use and the item is not one with a truthy RSS feed URL; a null item with server data goes to the server |
| `NowPlayingItems.NowPlayingItemStore.SetNowPlayingItemLocally` | src/services/userNowPlayingItem.ts:71-76 | a null item stores nothing; otherwise the item with its rounded position is stored, and that is also the caller's item afterwards |
| `NowPlayingItems.NowPlayingItemStore.SetNowPlayingItemOnServer` | src/services/userNowPlayingItem.ts:78-106 | a null item, one without ids or one added by RSS feed URL changes nothing; otherwise one local write and one PATCH with the body above |
| `NowPlayingItems.NowPlayingItemStore.SetNowPlayingItem` | src/services/userNowPlayingItem.ts:18-23 | the server path is taken exactly when server data is in use and the item was not added by RSS feed URL; else the local write |
| `NowPlayingItems.GetEnrichedNowPlayingItemFromLocalStorage` | src/services/userNowPlayingItem.ts:140-171 | null for an empty id; otherwise the first history match, else the first queue match, else the downloaded episode, each case exactly when the earlier ones find nothing |
| `V4VRecipientsInfo.ErrorMatchesRecipient` | src/components/V4VRecipientsInfoView.tsx:38-47 | with both custom key and value an error matches on all of key, value and address; otherwise on address alone |
| `V4VRecipientsInfo.ErroringFor` | src/components/V4VRecipientsInfoView.tsx:38-47 | the error shown is the first matching entry, and there is none exactly when no entry matches |
| `V4VRecipientsInfo.ParsedTotal` | src/components/V4VRecipientsInfoView.tsx:34 | a string total is parsed in base 10 (NaN when no digit follows the optional white space and sign), a number is shown as is, and an absent total stays undefined |
| `V4VRecipientsInfo.TextTotalShowsItsNumber` | src/components/V4VRecipientsInfoView.tsx:34 | a total given as the decimal text of a number shows that number |
| `V4VRecipientsInfo.Rows` | src/components/V4VRecipientsInfoView.tsx:95-103 | one row per transaction, in order |
| `V4VRecipientsInfo.RowFor` | src/components/V4VRecipientsInfoView.tsx:36-71 | a row carries its recipient's name, split and amount, and shows an error exactly when some route error matches the recipient, and then the first match's message |
| `V4VRecipientsInfo.RenderRecipientsInfo` | src/components/V4VRecipientsInfoView.tsx:26-106 | nothing is rendered exactly when there is no active value tag; absent errors default to []; the fees header appears exactly when there are fee transactions; the label is 'amount paid' for a receipt and 'total amount' otherwise |
| `V4VRecipientsInfo.NoErrorsMarksNoRecipient` | src/components/V4VRecipientsInfoView.tsx:31 | without erroring transactions no row shows an error |
| `V4VRecipientsInfo.RowErrorIsFirstMatch` | src/components/V4VRecipientsInfoView.tsx:36-103 | in the rendered view the i-th recipient row belongs to the i-th transaction and shows an error exactly when some route error matches that recipient |
| `EpisodeMediaRefScreens.InitialState` | src/screens/EpisodeMediaRefScreen.tsx:41-62 | page 1, end not reached, not loading, the initial data or [], the total items or 0, the view type or null |
| `EpisodeMediaRefScreens.QueryRequest` | src/screens/EpisodeMediaRefScreen.tsx:83-106 | chapters are fetched for the chapters key; clips in the current sort at the requested page; any other key as a sort at page 1 |
| `EpisodeMediaRefScreens.QueryPatch` | src/screens/EpisodeMediaRefScreen.tsx:68-119 | on a result the old list is a prefix of the new, followed by the fetched items; the end is reached always for chapters and otherwise when the list holds the total; the page is the requested one or 1; on an error only the loading flags are set |
| `EpisodeMediaRefScreens.Apply` | src/screens/EpisodeMediaRefScreen.tsx:77-117 | merging the patch clears both loading flags, replaces exactly the fields the patch sets and keeps the sort, origin and view type |
| `EpisodeMediaRefScreens.SelectSortItem` | src/screens/EpisodeMediaRefScreen.tsx:147-169 | an empty key changes nothing; otherwise the new sort is recorded, the page is 1, nothing is loading, and the view type is kept |
| `EpisodeMediaRefScreens.LoadMoreAllowed` | src/screens/EpisodeMediaRefScreen.tsx:173-174 | more is loaded exactly when the view is the clips view, the end is not reached, no load is in progress and the distance from the end is above -1 |
| `EpisodeMediaRefScreens.EndReached` | src/screens/EpisodeMediaRefScreen.tsx:171-188 | a refused load changes nothing; the old list is always a prefix of the new one; an allowed load clears the loading flags; the view type and sort are kept |
| `EpisodeMediaRefScreens.SelectSortItemOutcome` | src/screens/EpisodeMediaRefScreen.tsx:147-169 | an empty key is a no-op; otherwise the sort is recorded, the page is 1 and the list is the first page of the new sort, or empty with the end not reached on an error |
| `EpisodeMediaRefScreens.EndReachedOutcome` | src/screens/EpisodeMediaRefScreen.tsx:171-188 | nothing happens unless loading more is allowed; then the fetched items are appended and the next page recorded, or on an error only the loading flags are cleared |
| `EpisodeMediaRefScreens.TransitionsKeepValidState` | src/screens/EpisodeMediaRefScreen.tsx:113-182 | sort selection and load-more keep the page number at 1 or more |
| `EpisodeMediaRefScreens.EndReachedRunExtends` | src/screens/EpisodeMediaRefScreen.tsx:171-188 | over any run of load-more events the list only grows at its end and the page never decreases |
| `EpisodeMediaRefScreens.EpisodeMediaRefScreen.constructor` | src/screens/EpisodeMediaRefScreen.tsx:41-62 | the state is the initial state for the navigation parameters |
| `EpisodeMediaRefScreens.EpisodeMediaRefScreen.QueryData` | src/screens/EpisodeMediaRefScreen.tsx:68-119 | the fetch made and the patch built field by field agree with `QueryRequest` and `QueryPatch` |
| `EpisodeMediaRefScreens.EpisodeMediaRefScreen.HandleSelectSortItem` | src/screens/EpisodeMediaRefScreen.tsx:147-169 | the state follows `SelectSortItem`; no fetch for an empty key |
| `EpisodeMediaRefScreens.EpisodeMediaRefScreen.OnEndReached` | src/screens/EpisodeMediaRefScreen.tsx:171-188 | a fetch is made exactly when loading more is allowed, and it asks for the next page of clips in the current sort |

## Left out

- `processValueTransactionQueue`, `saveStreamingValueTransactionsToTransactionQueue`, `v4vGetActiveProviderInfo` and `getBoostagramItemValueTags` are not part of this model. Their calls are recorded as effects, and their results (provider amount and key, flush result) are inputs.
- The asynchronous, fire-and-forget promise chains and the React `setState` callbacks: ticks and transitions are modelled as strictly sequential.
- `V4VStreaming.Increment`: iOS speed compensation uses Dafny `real` division, which is exact, not IEEE floating point. The playback speed is taken to be positive.
- NaN and infinite numbers. Positions are `real` and `Math.floor` is `real.Floor`. Totals and amounts are integers, so a fractional total is not modelled.
- JSON parse/stringify are treated as lossless. A stored value that does not parse is a distinct `Unparseable` value.
- Storage keys and filter keys (`PV.Keys`, `PV.Filters`) are not part of this model. They are named constants whose only relevant property is that they are distinct.
- `checkIfIdMatchesClipIdOrEpisodeIdOrAddByUrl` is a parameter of the enriched lookup. `getHistoryItemsLocally`, `getQueueItemsLocally` and `getDownloadedEpisode` results are inputs. `NowPlayingItems.GetEnrichedNowPlayingItemFromLocalStorage` returns the downloaded episode itself, because `convertToNowPlayingItem` is not part of this model.
- `NowPlayingItems.NowPlayingItemStore.SetNowPlayingItemLocally`: the in-place update of the caller's item object is modelled by returning the updated item. Aliasing of that object is not modelled.
- `getPodcast`, `toggleSubscribeToPodcast` (a login dispatch), `toggleSubscribeToPodcastOnServer`, `getNowPlayingItem`, `getNowPlayingItemOnServer` and the `clearNowPlayingItem` functions are plain HTTP or storage calls outside the modelled core.
- `getPodcasts` input types: `includeAuthors` and `includeCategories` are booleans, and `categories` is a string. The `['no-results']` alternative at `podcast.ts:28` is unreachable, because it sits inside a branch where `podcastIds` is already truthy.
- Value tags are modelled as arrays. A non-array truthy `episodeValue`, which `Array.isArray` would reject, is not modelled.
- `Decimal.ParseInt` skips only the ASCII white space (space, tab, newline, vertical tab, form feed, carriage return), not the Unicode white space and line terminators `parseInt` also skips (such as U+00A0, U+2028 and U+FEFF).
- `V4VStreaming.ValueStreamingTimer.HandleValueStreamingMinutePassed`: the handler is assumed to complete. A null `nowPlayingItem` (which throws at `v4vStreaming.ts:30` before the accumulator is cleared, so every later playing tick re-enters the handler with the accumulator at 60 or more), a throwing provider lookup, and a rejected save (after `:41` has cleared the queue counter, so `:53` is not reached and that flush is skipped) are not modelled.
- JSX rendering, styles, navigation, translation strings, sort and filter labels, the selected item and the action sheet, and the value-time-split header of the recipients view are all presentational.
- `src/screens/PlaylistScreen.tsx`, `src/screens/AuthScreen.tsx`, `src/components/TableSectionSelectors.tsx` and `src/components/MediaPlayerCarouselShowNotes.tsx` are UI composition and alert dispatch.
