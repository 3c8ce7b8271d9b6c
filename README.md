# YouTube aggregation layer — a Dafny model

This project models the aggregation layer of a small Go service that answers
"search videos by tag" and "list a channel's uploads" requests on top of the
YouTube Data API. The layer sits between the HTTP handlers and the upstream API:

- it follows `nextPageToken` through paged endpoints (search, playlist items,
  video lookup), each paginator with its own page bound and its own rule for
  the last page;
- it cuts long id lists into lookup batches of at most 50 ids;
- it keeps only search results with more than `MinViews` (1000) views and
  copies channel data and thumbnails from the listing onto the looked-up videos;
- it wraps every public operation in a cache lookup (`MemoryCache`, four
  string-keyed partitions) and stores only the results its rules allow.

The model is organised as the source is:

| file | module | what it holds |
|---|---|---|
| `wrappers.dfy` | `Wrappers` | `Option` and `Result` |
| `types.dfy` | `Types` | the records (`Video`, `VideoResults`, `ChannelInfo`, `Item`, …), the errors, the upstream endpoints as function values |
| `text.dfy` | `Text` | `strings.Join`, the space rewrite of search queries, `strconv.Itoa` / `strconv.Atoi` |
| `memory_cache.dfy` | `Caching` | the `MemoryCache` class |
| `paging.dfy` | `Paging` | Go's truncating division, `calculateNumPages`, the page-count clamp, `batchIteration` |
| `pagination.dfy` | `Pagination` | `PageWalk`, the specification of a token-following loop, and the three paginator loops proved against it |
| `aggregate.dfy` | `Aggregate` | the view-count filter and the two merges |
| `youtube.dfy` | `Youtube` | cache keys, one specification function per public operation, the cache-rule lemmas, and the `YoutubeApi` class |

Each public operation of `YoutubeApi` is a method on the class that calls the
real `MemoryCache` and the endpoint functions. It is proved equal to a
specification function (`FindTagsSpec`, `GetVideosSpec`, …) from the cache
contents before the call to the result and the cache contents after it. The
lemmas about cache hits, frames and invariants are stated over those
functions.

Where a description of the service's behaviour and the code itself disagree,
the model follows the code:

- an empty view count is skipped by the filter, not treated as an error;
- `GetVideos` returns what it gathered together with the error when a request fails;
- the playlist cache key is built from the channel item's id, not from the uploads playlist id;
- `GetVideos` tests a page's continuation token before appending its items, so
  the items of a page with an empty token (the last page of every batch) are
  dropped. `Youtube.GetVideosSinglePages` states the consequence.

## Model

| member | source | states |
|---|---|---|
| `Caching.MemoryCache.constructor` | memory_cache.go:15-22 | all four partitions start empty, so every read is a miss |
| `Caching.MemoryCache.GetVideo` | memory_cache.go:25-29 | returns the value stored under the key; an absent key and a stored nil both read as a miss |
| `Caching.MemoryCache.SetVideo` | memory_cache.go:32-36 | only the key's entry of the video partition changes; the other three partitions are unchanged; the key then reads back the stored value |
| `Caching.MemoryCache.GetChannel` | memory_cache.go:39-43 | as `GetVideo`, for the channel partition |
| `Caching.MemoryCache.SetChannel` | memory_cache.go:46-50 | as `SetVideo`, for the channel partition |
| `Caching.MemoryCache.GetPlaylist` | memory_cache.go:53-57 | as `GetVideo`, for the playlist partition |
| `Caching.MemoryCache.SetPlaylist` | memory_cache.go:60-64 | as `SetVideo`, for the playlist partition |
| `Caching.MemoryCache.GetVideoDetail` | memory_cache.go:67-71 | as `GetVideo`, for the video-detail partition |
| `Caching.MemoryCache.SetVideoDetail` | memory_cache.go:74-78 | as `SetVideo`, for the video-detail partition |
| `Caching.MemoryCache.GetServiceName` | memory_cache.go:80-82 | the name is "memory-cache" |
| `Caching.Lookup` | memory_cache.go:28 | a map read: the stored value when the key holds a non-nil value, otherwise a miss |
| `Text.EscapeSpaces` | youtube.go:337 | no space is left in the rewritten query, which is never shorter |
| `Text.EscapeSpacesIdentity` | youtube.go:337 | a query without spaces is sent unchanged |
| `Text.EscapeSpacesIdempotent` | youtube.go:337 | rewriting twice equals rewriting once |
| `Text.EscapeSpacesAppend` | youtube.go:337 | the rewrite distributes over concatenation |
| `Text.NatToDecimalDigits` | youtube.go:115 | the decimal form of a natural number is a non-empty digit string whose value is the number |
| `Text.AtoiItoa` | youtube.go:115 | `Atoi` reads back every integer `Itoa` writes |
| `Text.AtoiRejectsEmpty` | youtube.go:100 | the empty string and a sign without digits are rejected |
| `Text.AtoiRejects` | youtube.go:395-399 | a string with a non-digit anywhere other than a leading sign is rejected |
| `Paging.CalculateNumPages` | youtube.go:458-464 | for a non-negative count, the least number of 50-item pages that hold it; for a negative count, at most 0 |
| `Paging.Budget` | youtube.go:471 | a `for i := 0; i < n; i++` loop runs `n` times, or never when `n` is negative |
| `Paging.EffectivePages` | youtube.go:613-625 | the page count is always in [1, 5]: 1 without an argument or for one at most 1, the argument when it is between 2 and 4, and 5 above |
| `Paging.EffectivePagesFirstOnly` | youtube.go:615-623 | only the first optional argument is read |
| `Paging.PagesPerBatch` | youtube.go:583 | the inner bound of `GetVideos` is the ceiling of the batch count divided by 10 |
| `Paging.PagesPerBatchSmall` | youtube.go:583 | with 1 to 10 batches each batch gets exactly one page request |
| `Paging.JoinEachLength` | youtube.go:534 | one comma-joined string per chunk, in chunk order |
| `Paging.ChunksFlatten` | youtube.go:527-537 | the chunks concatenate back to the input: no id is dropped, duplicated or moved |
| `Paging.ChunkSizes` | youtube.go:529-533 | every chunk holds between 1 and 50 ids |
| `Paging.ChunkCount` | youtube.go:527-537 | there are `calculateNumPages(len(input))` chunks, and none exactly for an empty input |
| `Paging.BatchIteration` | youtube.go:527-537 | the loop's batches are the comma-joined 50-id chunks of the input, `calculateNumPages(len(input))` of them |
| `Pagination.WalkShape` | youtube.go:347-386 | a walk sends at most `budget` requests, gets one page per request except a failed last one, and its first request carries the starting token |
| `Pagination.WalkContinuation` | youtube.go:348-351 | every request after the first carries the non-empty token of the page before it |
| `Pagination.WalkResponses` | youtube.go:354-376 | each recorded page is the endpoint's answer to the matching request |
| `Pagination.WalkFailsLast` | youtube.go:354-376 | a failed walk failed on its last request, with the endpoint's error |
| `Pagination.WalkStops` | youtube.go:382-385 | a walk that neither failed nor ran out of budget ended on a page with an empty token; no earlier page had one |
| `Pagination.ItemsBeforeEndAllContinue` | youtube.go:599-604 | when every page carries a token, dropping empty-token pages drops nothing |
| `Pagination.WalkItems` | youtube.go:599-604 | keeping every page differs from dropping empty-token pages by exactly the final page's items, when that page has an empty token |
| `Pagination.IdsOfShape` | youtube.go:378-381 | the id list has one id per listing entry, in entry order |
| `Pagination.IndexOfKeys` | youtube.go:378-381 | an id is in the index exactly when some entry carries it |
| `Pagination.IndexOfLast` | youtube.go:378-381 | an indexed id maps to the data of the last entry that carries it |
| `Pagination.ListingOfPagesAll` | youtube.go:378-381 | recording page by page gives the same ids and index as recording all entries at once |
| `Pagination.Request` | youtube.go:352-385 | one request: the endpoint's answer with the walk's token, the request and page logged, and the remaining walk determined |
| `Pagination.RecordPage` | youtube.go:378-381 | appending one page's entries to the ids and the index gives the listing of the pages so far |
| `Pagination.FollowPages` | youtube.go:347-386 | the search loop performs exactly `PageWalk` with `numPages` requests at most; on success it returns the ids and index of all pages, the last included |
| `Pagination.FetchPlaylistVideos` | youtube.go:466-488 | the playlist loop performs exactly `PageWalk` with `numPages` requests at most; on success it returns the ids and thumbnails of all pages, the last included |
| `Pagination.FetchBatch` | youtube.go:582-605 | one batch's inner loop performs exactly `PageWalk` with the bound; its items are those of the pages that carry a non-empty token |
| `Pagination.FetchDetailsAppend` | youtube.go:581-606 | batches run one after another: the outcome for `a + b` is that for `a`, followed by that for `b` unless `a` already failed |
| `Aggregate.MergeSnippet` | youtube.go:401-405 | a video with a search hit takes its channel id, channel title and thumbnails; nothing else changes, and a video without a hit is unchanged |
| `Aggregate.WithThumbnails` | youtube.go:519-521 | a video with listed thumbnails takes them; nothing else changes |
| `Aggregate.FilteredFails` | youtube.go:393-399 | the filter fails exactly when some video has a non-empty view count that does not parse |
| `Aggregate.FilteredFirstError` | youtube.go:395-399 | a failure carries the text of the first malformed view count of the input |
| `Aggregate.FilteredValue` | youtube.go:392-410 | on success the result is the popular videos, in input order, each merged with its search hit |
| `Aggregate.FilteredPopular` | youtube.go:400 | every video the filter returns has more than `MinViews` views |
| `Aggregate.KeepPopularMembers` | youtube.go:394-400 | a video is kept exactly when it is in the input with a parseable view count above `MinViews` |
| `Aggregate.MergeAllAt` | youtube.go:401-406 | merging keeps the length and merges each position independently |
| `Aggregate.FilterAndMerge` | youtube.go:392-410 | the loop's result is the filter's: failure exactly when a view count is malformed, otherwise the merged popular videos |
| `Aggregate.ThumbnailsMergedAt` | youtube.go:517-524 | the thumbnail merge keeps the length and rewrites each position independently |
| `Aggregate.ProcessVideoItems` | youtube.go:517-524 | no video is added, dropped or moved; each takes its listed thumbnails; the page token is kept |
| `Youtube.PlaylistKeyInjective` | youtube.go:115 | for non-negative counts the playlist key determines both the item id and the count |
| `Youtube.PlaylistKeyNegativeCollision` | youtube.go:115 | with a negative count two different (id, count) pairs share a key |
| `Youtube.GetVideoCount` | youtube.go:99-106 | succeeds exactly when the count parses, with the parsed value; otherwise "internal server error" |
| `Youtube.GetVideoCountItoa` | youtube.go:99-106 | a count written in decimal reads back as itself |
| `Youtube.GetVideoCountEmpty` | youtube.go:100-103 | an empty video count fails with "internal server error" |
| `Youtube.FindTagsRepeat` | youtube.go:330-334 | once a search has succeeded, asking again returns the same result and changes nothing, for any page count and whatever the endpoints now answer |
| `Youtube.FindTagsFrame` | youtube.go:330-416 | `FindTags` leaves the channel and playlist partitions alone and writes at most its input's entry of the video partition, with the result it returns |
| `Youtube.FindTagsFailureFrame` | youtube.go:387-399 | a failed search writes nothing to the video partition |
| `Youtube.FindTagsSharesDetail` | youtube.go:410-413 | after a search that missed the cache and succeeded, the input's video entry and the video-detail entry of the hits' ids hold the same filtered result |
| `Youtube.FindTagsPopular` | youtube.go:392-413 | every cached search result, and every returned one, holds only videos with more than `MinViews` views |
| `Youtube.GetVideosFrame` | youtube.go:569-611 | `GetVideos` writes nothing but the video-detail partition |
| `Youtube.GetVideosRepeat` | youtube.go:571-575 | once a lookup has succeeded, asking again returns the same result and changes nothing |
| `Youtube.GetVideosFailureWritesNothing` | youtube.go:589-597 | a failed lookup returns the items gathered before the failure and leaves the cache as it was |
| `Youtube.GetVideosSinglePages` | youtube.go:599-604 | when every batch is answered by one page with an empty token, the lookup returns no videos and caches that empty result |
| `Youtube.GetChannelInfoHit` | youtube.go:76-78 | a cached channel is returned as is, without asking the endpoint, and nothing changes |
| `Youtube.GetChannelInfoRepeat` | youtube.go:75-91 | once a channel has been returned, asking again returns it and changes nothing, whatever the endpoint now answers |
| `Youtube.GetChannelInfoNonEmpty` | youtube.go:75-91 | every cached and every returned channel has at least one item; only the requested key of the channel partition is written |
| `Youtube.MissingUploadsStoresNil` | youtube.go:133-138 | an item without an uploads playlist stores nil under its key and fails; nil reads as a miss, so a second call fails the same way |
| `Youtube.GetChannelPlaylistRepeat` | youtube.go:114-132 | once a playlist has been returned, asking again returns it and changes nothing |
| `Youtube.GetChannelPlaylistFrame` | youtube.go:114-139 | `GetChannelPlaylist` leaves the video and channel partitions unchanged |
| `Youtube.GetChannelPlaylistSharesDetail` | youtube.go:130 | after a playlist fetch that missed the cache and succeeded, the playlist entry and the video-detail entry of the listed ids hold the same result |
| `Youtube.CacheInvariantInitial` | memory_cache.go:15-22 | a new cache holds no unpopular search result and no empty channel |
| `Youtube.CacheInvariantKept` | youtube.go:75-139 | each of `GetChannelInfo`, `GetVideos`, `FindTags` and `GetChannelPlaylist` keeps both invariants: cached search results hold only popular videos, cached channels are non-empty |
| `Youtube.ChannelPlaylistShape` | youtube.go:442-456 | the playlist has one video per detail returned, in order, each with its listed thumbnails |
| `Youtube.CollectBatches` | youtube.go:581-606 | the batch loop gathers exactly what `FetchDetails` prescribes: items in batch order, stopping at the first failure |
| `Youtube.YoutubeApi.constructor` | youtube.go:60-66 | the client holds the given key, cache and endpoints |
| `Youtube.YoutubeApi.GetChannelInfo` | youtube.go:75-91 | result and new cache contents are those of `GetChannelInfoSpec`: a hit is returned; a fetch error, or a channel with no items, fails and caches nothing; otherwise the channel is cached |
| `Youtube.YoutubeApi.GetVideos` | youtube.go:569-611 | result and new cache contents are those of `GetVideosSpec`: keyed by the comma-joined ids; batches walked with the shared bound; cached only when no request failed |
| `Youtube.YoutubeApi.FetchChannelPlaylist` | youtube.go:442-456 | result and new cache contents are those of `ChannelPlaylistSpec`: the playlist walk, the lookup of its ids, and the thumbnail merge, which also rewrites the video-detail entry of those ids |
| `Youtube.YoutubeApi.GetChannelPlaylist` | youtube.go:114-139 | result and new cache contents are those of `GetChannelPlaylistSpec`: any fetch failure becomes "internal server error", a success is cached, a missing uploads playlist stores nil |
| `Youtube.YoutubeApi.FindTags` | youtube.go:330-416 | result and new cache contents are those of `FindTagsSpec`: hit, escaped search walk, lookup, filter and merge; the filtered result is cached under the input and replaces the video-detail entry of the hits' ids |
| `Youtube.YoutubeApi.SearchAndRetrieveTags` | youtube.go:613-625 | behaves as `FindTags` with the page count clamped into [1, 5] |

## Left out

- HTTP requests, response bodies, JSON decoding and URL construction: every
  endpoint is a function from (target, optional page token) to a decoded page
  or a `FetchError` (transport or decode). The API key appears only in URLs
  and is not used by the model beyond being stored.
- `GetInstance` and the package-level singleton: the client is constructed
  directly. The operations themselves call `GetInstance()` too: `getChannelInfo`
  (youtube.go:420), `generatePageUrl` (youtube.go:495) and `GetVideos`
  (youtube.go:588, once per lookup request). Each such call runs
  `SearchAndRetrieveTags("alai")` on the singleton, and the request then uses
  the singleton's API key rather than the client's. None of this is modelled:
  not the nested searches, not their writes to the singleton's video and
  video-detail partitions (which, when the client is the singleton, are the
  client's own, so `Youtube.GetVideosFrame` and `Youtube.FindTagsFrame` hold
  only of the model), not the recursion GetVideos → GetInstance → FindTags →
  GetVideos that this sets off before anything is cached, and not the
  singleton's key.
- The mutex in `MemoryCache`: operations are modelled as atomic and sequential.
- The `Cache` interface and its Redis implementation: cache.go is not part of
  this model; the client is modelled over `MemoryCache` only.
- Logging, and the text of error messages (errors are an `Error` datatype with
  one constructor per message).
- `Paging.PagesPerBatch`: the bound `int(math.Ceil(float64(n) / 10))` is
  modelled as the integer ceiling, which equals it for every count of batches
  a real list can produce.
- `Text.AtoiItoa`: `strconv.Atoi`'s 64-bit range check is not modelled;
  integers are unbounded.
- Go pointer aliasing: records are values. The source's `GetVideos` returns the
  very `VideoResults` object held in the video-detail partition (a hit at
  youtube.go:574, or the one stored at youtube.go:608). `FindTags` replaces its
  items (youtube.go:410) and stores the same object in the video partition
  (youtube.go:413); `processVideoItems` rewrites its thumbnails and returns it
  (youtube.go:523), and `GetChannelPlaylist` stores it in the playlist partition
  (youtube.go:130). The model captures the value each entry holds when the call
  returns (the detail entry is written with the same result), but not that the
  entries are one object, nor that the `Video` records are shared between
  results: a later call that rewrites a shared object or record (another search
  or playlist over the same ids) changes the earlier entries too. A `FindTags`
  that fails on a malformed view count has already merged the snippets of the
  earlier popular items into the cached detail object; the model leaves that
  entry unchanged.
- Nil pointers: a nil channel info is modelled only through an empty item list,
  and panics on nil fields of decoded records are not modelled.
- `SearchAndRetrieveTags` called with an explicit empty slice panics in the
  source; the model treats it as "no argument" (page count 1).
- The "no results found" branch of `GetChannelPlaylist` cannot be reached, since
  `getChannelPlaylist` returns a non-nil result whenever it returns no error; it
  is not modelled.
- The optional parameters of `FindTags` are never read and are not modelled.
