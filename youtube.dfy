/** `YoutubeApi`: the cache-around-fetch operations. Each operation is specified
    as a function from the cache contents before the call to its result and the
    cache contents after it (`Step`); the class methods, which call the real
    cache, are proved to follow those functions. */
module Youtube {
  import opened Wrappers
  import opened Types
  import opened Text
  import opened Paging
  import opened Pagination
  import opened Aggregate
  import opened Caching

  /** What a call returns, together with the cache contents after it. */
  datatype Step<R> = Step(result: R, after: Partitions)

  /** What `GetVideos` returns: the results gathered, and the failure that cut
      them short, if any (Go returns both). */
  datatype Fetched = Fetched(results: VideoResults, failure: Option<FetchError>)

  // ----- keys and counts -----

  /** The playlist cache key: the item's id, a dash, and the video count in decimal. */
  function PlaylistKey(id: string, vidCount: int): string {
    id + "-" + Itoa(vidCount)
  }

  /** Index of the last dash in `s`, or -1 when there is none. */
  function LastDash(s: string): int
    decreases |s|
  {
    if |s| == 0 then -1
    else if s[|s| - 1] == '-' then |s| - 1
    else LastDash(s[..|s| - 1])
  }

  /** A dash followed by digits only: the dash is the last one. */
  lemma {:induction false} LastDashBeforeDigits(a: string, d: string)
    requires AllDigits(d)
    ensures LastDash(a + "-" + d) == |a|
    decreases |d|
  {
    if |d| > 0 {
      var n := |d| - 1;
      assert (a + "-" + d)[..|a| + 1 + n] == a + "-" + d[..n];
      LastDashBeforeDigits(a, d[..n]);
    }
  }

  /** For non-negative counts the key determines both the id and the count. */
  lemma PlaylistKeyInjective(id: string, n: int, id': string, n': int)
    requires n >= 0 && n' >= 0 && PlaylistKey(id, n) == PlaylistKey(id', n')
    ensures id == id' && n == n'
  {
    var key := PlaylistKey(id, n);
    NatToDecimalDigits(n);
    NatToDecimalDigits(n');
    LastDashBeforeDigits(id, Itoa(n));
    LastDashBeforeDigits(id', Itoa(n'));
    assert id == key[..|id|] == id';
    assert Itoa(n) == key[|id| + 1..] == Itoa(n');
    AtoiItoa(n);
    AtoiItoa(n');
  }

  /** A negative count's sign collides with a dash inside the id. */
  lemma PlaylistKeyNegativeCollision()
    ensures PlaylistKey("a", -1) == PlaylistKey("a-", 1)
  {
  }

  /** `GetVideoCount`: the item's video count parsed as a decimal integer, or
      "internal server error". */
  function GetVideoCount(item: Item): (r: Result<int, Error>)
    ensures r.Success? <==> Atoi(item.statistics.videoCount).Some?
    ensures r.Success? ==> r.value == Atoi(item.statistics.videoCount).value
    ensures r.Failure? ==> r.error == InternalServerError
  {
    match Atoi(item.statistics.videoCount)
    case None => Failure(InternalServerError)
    case Some(n) => Success(n)
  }

  /** A count written in decimal reads back as itself. */
  lemma GetVideoCountItoa(item: Item, n: int)
    requires item.statistics.videoCount == Itoa(n)
    ensures GetVideoCount(item) == Success(n)
  {
    AtoiItoa(n);
  }

  /** An empty video count is not a number. */
  lemma GetVideoCountEmpty(item: Item)
    requires item.statistics.videoCount == ""
    ensures GetVideoCount(item) == Failure(InternalServerError)
  {
  }

  // ----- the operations on cache contents -----

  /** `GetChannelInfo`: a cached channel is returned as is; otherwise the channel
      is fetched, and only a result with at least one item is cached. */
  function GetChannelInfoSpec(channels: ChannelSource, s: Partitions, channelId: string): Step<Result<ChannelInfo, Error>> {
    var cached := Lookup(s.channels, channelId);
    if cached.Some? then Step(Success(cached.value), s)
    else
      match channels(channelId)
      case Failure(_) => Step(Failure(ChannelInfoNotFound), s)
      case Success(info) =>
        if |info.items| == 0 then Step(Failure(NoChannelItems), s)
        else Step(Success(info), s.(channels := s.channels[channelId := Some(info)]))
  }

  /** `GetVideos`: keyed by the comma-joined ids; on a miss the ids are cut into
      batches, each batch is walked with `ceil(#batches / 10)` pages, and only
      a complete result is cached. */
  function GetVideosSpec(videos: Source<Video>, s: Partitions, ids: seq<string>): Step<Fetched> {
    var key := Join(ids, ",");
    var cached := Lookup(s.details, key);
    if cached.Some? then Step(Fetched(cached.value, None), s)
    else
      var batches := Batches(ids);
      var d := FetchDetails(videos, batches, PagesPerBatch(|batches|));
      var results := VideoResults(d.items, "");
      if d.failure.Some? then Step(Fetched(results, d.failure), s)
      else Step(Fetched(results, None), s.(details := s.details[key := Some(results)]))
  }

  /** `getChannelPlaylist`: `calculateNumPages(numItems)` pages of the playlist,
      the details of the listed videos, and the listed thumbnails copied onto them.
      The copy is made in place on the object `GetVideos` returned, which is the
      video-detail entry of the listed ids, so that entry ends up holding the result. */
  function ChannelPlaylistSpec(up: Upstream, s: Partitions, playlistId: string, numItems: int)
    : Step<Result<VideoResults, FetchError>>
  {
    var w := PageWalk(up.playlistItems, playlistId, Budget(CalculateNumPages(numItems)), None);
    if w.failure.Some? then Step(Failure(w.failure.value), s)
    else
      var listing := ListingOfPages(w.pages);
      var g := GetVideosSpec(up.videos, s, listing.ids);
      if g.result.failure.Some? then Step(Failure(g.result.failure.value), g.after)
      else
        var vr := g.result.results;
        var merged := VideoResults(ThumbnailsMerged(vr.items, listing.index), vr.nextPageToken);
        Step(Success(merged), g.after.(details := g.after.details[Join(listing.ids, ",") := Some(merged)]))
  }

  /** `GetChannelPlaylist`: keyed by `PlaylistKey(item.id, vidCount)`; an item
      without an uploads playlist stores nil under the key and fails. */
  function GetChannelPlaylistSpec(up: Upstream, s: Partitions, item: Item, vidCount: int)
    : Step<Result<VideoResults, Error>>
  {
    var key := PlaylistKey(item.id, vidCount);
    var cached := Lookup(s.playlists, key);
    if cached.Some? then Step(Success(cached.value), s)
    else if item.contentDetails.Some? && item.contentDetails.value.relatedPlaylists.Some? then
      var f := ChannelPlaylistSpec(up, s, item.contentDetails.value.relatedPlaylists.value.uploads, vidCount);
      if f.result.Failure? then Step(Failure(InternalServerError), f.after)
      else Step(Success(f.result.value), f.after.(playlists := f.after.playlists[key := Some(f.result.value)]))
    else Step(Failure(MissingUploadsPlaylist), s.(playlists := s.playlists[key := None]))
  }

  /** `FindTags`: keyed by the raw input; on a miss the escaped query is searched
      for `numPages` pages, the hits' details are looked up, and the popular
      videos, merged with their search hits, are cached. The filtered list
      replaces the items of the object `GetVideos` returned, which is the
      video-detail entry of the hits' ids: that entry and the new video entry
      hold the same result. */
  function FindTagsSpec(up: Upstream, s: Partitions, input: string, numPages: int): Step<Result<VideoResults, Error>> {
    var cached := Lookup(s.videos, input);
    if cached.Some? then Step(Success(cached.value), s)
    else
      var w := PageWalk(up.search, EscapeSpaces(input), Budget(numPages), None);
      if w.failure.Some? then Step(Failure(FetchFailed(w.failure.value)), s)
      else
        var listing := ListingOfPages(w.pages);
        var g := GetVideosSpec(up.videos, s, listing.ids);
        if g.result.failure.Some? then Step(Failure(FetchFailed(g.result.failure.value)), g.after)
        else
          match Filtered(g.result.results.items, listing.index)
          case Failure(e) => Step(Failure(e), g.after)
          case Success(kept) =>
            var res := g.result.results.(items := kept);
            Step(Success(res), g.after.(videos := g.after.videos[input := Some(res)],
                                        details := g.after.details[Join(listing.ids, ",") := Some(res)]))
  }

  // ----- what the cache rules promise -----

  /** A search result, once cached, is served again for any page count and
      whatever the endpoints would now answer. */
  lemma FindTagsRepeat(up: Upstream, up': Upstream, s: Partitions, input: string, numPages: int, numPages': int)
    requires FindTagsSpec(up, s, input, numPages).result.Success?
    ensures var st := FindTagsSpec(up, s, input, numPages);
      FindTagsSpec(up', st.after, input, numPages') == st
  {
  }

  /** No call of `FindTags` touches the channel or playlist partitions, and it
      writes at most its own input's entry of the video partition. */
  lemma FindTagsFrame(up: Upstream, s: Partitions, input: string, numPages: int)
    ensures var st := FindTagsSpec(up, s, input, numPages);
      && st.after.channels == s.channels && st.after.playlists == s.playlists
      && (st.after.videos == s.videos || (st.result.Success? && st.after.videos == s.videos[input := Some(st.result.value)]))
  {
    var st := FindTagsSpec(up, s, input, numPages);
    if Lookup(s.videos, input).None? {
      var w := PageWalk(up.search, EscapeSpaces(input), Budget(numPages), None);
      if w.failure.None? {
        var listing := ListingOfPages(w.pages);
        var g := GetVideosSpec(up.videos, s, listing.ids);
        GetVideosFrame(up.videos, s, listing.ids);
        if g.result.failure.None? {
          match Filtered(g.result.results.items, listing.index)
          case Failure(e) =>
            assert st.after == g.after;
          case Success(kept) =>
            assert st.result == Success(g.result.results.(items := kept));
            assert st.after == g.after.(videos := s.videos[input := Some(st.result.value)],
                                        details := g.after.details[Join(listing.ids, ",") := Some(st.result.value)]);
        }
      }
    }
  }

  /** A failed search caches nothing under its input. */
  lemma FindTagsFailureFrame(up: Upstream, s: Partitions, input: string, numPages: int)
    ensures var st := FindTagsSpec(up, s, input, numPages);
      st.result.Failure? ==> st.after.videos == s.videos
  {
    if Lookup(s.videos, input).None? {
      var w := PageWalk(up.search, EscapeSpaces(input), Budget(numPages), None);
      if w.failure.None? {
        GetVideosFrame(up.videos, s, ListingOfPages(w.pages).ids);
      }
    }
  }

  /** `GetVideos` writes nothing but the video-detail partition. */
  lemma GetVideosFrame(src: Source<Video>, s: Partitions, ids: seq<string>)
    ensures var st := GetVideosSpec(src, s, ids);
      st.after == s.(details := st.after.details)
  {
  }

  /** Every video result in the video partition holds only videos with more
      than `MinViews` views. */
  ghost predicate VideosPopular(s: Partitions) {
    forall key :: key in s.videos && s.videos[key].Some? ==>
      forall v :: v in s.videos[key].value.items ==> Popular(v)
  }

  /** `FindTags` keeps `VideosPopular`, and everything it returns is popular. */
  lemma FindTagsPopular(up: Upstream, s: Partitions, input: string, numPages: int)
    requires VideosPopular(s)
    ensures var st := FindTagsSpec(up, s, input, numPages);
      && VideosPopular(st.after)
      && (st.result.Success? ==> forall v :: v in st.result.value.items ==> Popular(v))
  {
    if Lookup(s.videos, input).None? {
      var w := PageWalk(up.search, EscapeSpaces(input), Budget(numPages), None);
      if w.failure.None? {
        var listing := ListingOfPages(w.pages);
        var g := GetVideosSpec(up.videos, s, listing.ids);
        GetVideosFrame(up.videos, s, listing.ids);
        if g.result.failure.None? {
          var filtered := Filtered(g.result.results.items, listing.index);
          FilteredPopular(g.result.results.items, listing.index);
          if filtered.Success? {
            var st := FindTagsSpec(up, s, input, numPages);
            assert st.result == Success(g.result.results.(items := filtered.value));
            assert st.after.videos == s.videos[input := Some(st.result.value)];
          }
        }
      }
    }
  }

  /** A cached id list is served again whatever the endpoint would now answer. */
  lemma GetVideosRepeat(src: Source<Video>, src': Source<Video>, s: Partitions, ids: seq<string>)
    requires GetVideosSpec(src, s, ids).result.failure.None?
    ensures var st := GetVideosSpec(src, s, ids);
      GetVideosSpec(src', st.after, ids) == st
  {
  }

  /** A failed `GetVideos` hands back what it gathered and leaves the cache as it was. */
  lemma GetVideosFailureWritesNothing(src: Source<Video>, s: Partitions, ids: seq<string>)
    ensures var st := GetVideosSpec(src, s, ids);
      st.result.failure.Some? ==> st.after == s && st.result.results.items == FetchDetails(src, Batches(ids), PagesPerBatch(|Batches(ids)|)).items
  {
  }

  /** When every batch is answered by a single page (empty continuation token),
      `GetVideos` returns no videos at all, and caches that empty result: the
      token test precedes the append. */
  lemma GetVideosSinglePages(src: Source<Video>, s: Partitions, ids: seq<string>)
    requires forall batch :: src(batch, None).Success? && src(batch, None).value.nextPageToken == ""
    requires Lookup(s.details, Join(ids, ",")).None?
    ensures GetVideosSpec(src, s, ids)
         == Step(Fetched(VideoResults([], ""), None), s.(details := s.details[Join(ids, ",") := Some(VideoResults([], ""))]))
  {
    var batches := Batches(ids);
    if |batches| > 0 {
      FetchDetailsSinglePages(src, batches, PagesPerBatch(|batches|));
    }
  }

  lemma {:induction false} FetchDetailsSinglePages(src: Source<Video>, batches: seq<string>, bound: nat)
    requires bound > 0
    requires forall batch :: src(batch, None).Success? && src(batch, None).value.nextPageToken == ""
    ensures FetchDetails(src, batches, bound) == Details([], None)
    decreases |batches|
  {
    if |batches| > 0 {
      var p := src(batches[0], None).value;
      assert PageWalk(src, batches[0], bound, None) == Walk([None], [p], None);
      assert ItemsBeforeEnd([p]) == [];
      FetchDetailsSinglePages(src, batches[1..], bound);
    }
  }

  /** Every cached channel has at least one item. */
  ghost predicate ChannelsNonEmpty(s: Partitions) {
    forall key :: key in s.channels && s.channels[key].Some? ==> |s.channels[key].value.items| > 0
  }

  /** `GetChannelInfo` keeps `ChannelsNonEmpty`, so it never returns an empty
      channel, and it writes only the requested key of the channel partition. */
  lemma GetChannelInfoNonEmpty(channels: ChannelSource, s: Partitions, channelId: string)
    requires ChannelsNonEmpty(s)
    ensures var st := GetChannelInfoSpec(channels, s, channelId);
      && ChannelsNonEmpty(st.after)
      && (st.result.Success? ==> |st.result.value.items| > 0)
      && st.after.(channels := s.channels) == s
      && (st.after.channels == s.channels || st.after.channels == s.channels[channelId := Some(st.result.value)])
  {
  }

  /** An item without an uploads playlist stores nil under its key; nil reads as
      a miss, so asking again fails again rather than returning the stored nil. */
  lemma MissingUploadsStoresNil(up: Upstream, up': Upstream, s: Partitions, item: Item, vidCount: int)
    requires Lookup(s.playlists, PlaylistKey(item.id, vidCount)).None?
    requires item.contentDetails.None? || item.contentDetails.value.relatedPlaylists.None?
    ensures var st := GetChannelPlaylistSpec(up, s, item, vidCount);
      && st.result == Failure(MissingUploadsPlaylist)
      && PlaylistKey(item.id, vidCount) in st.after.playlists
      && st.after.playlists[PlaylistKey(item.id, vidCount)] == None
      && GetChannelPlaylistSpec(up', st.after, item, vidCount) == st
  {
  }

  /** A cached playlist is served again whatever the endpoints would now answer. */
  lemma GetChannelPlaylistRepeat(up: Upstream, up': Upstream, s: Partitions, item: Item, vidCount: int)
    requires GetChannelPlaylistSpec(up, s, item, vidCount).result.Success?
    ensures var st := GetChannelPlaylistSpec(up, s, item, vidCount);
      GetChannelPlaylistSpec(up', st.after, item, vidCount) == st
  {
  }

  /** The fetched playlist keeps the order and number of the details returned. */
  lemma ChannelPlaylistShape(up: Upstream, s: Partitions, playlistId: string, numItems: int)
    ensures var st := ChannelPlaylistSpec(up, s, playlistId, numItems);
      var listing := ListingOfPages(PageWalk(up.playlistItems, playlistId, Budget(CalculateNumPages(numItems)), None).pages);
      st.result.Success? ==>
        var details := GetVideosSpec(up.videos, s, listing.ids).result.results.items;
        && |st.result.value.items| == |details|
        && forall k :: 0 <= k < |details| ==> st.result.value.items[k] == WithThumbnails(details[k], listing.index)
  {
    var listing := ListingOfPages(PageWalk(up.playlistItems, playlistId, Budget(CalculateNumPages(numItems)), None).pages);
    ThumbnailsMergedAt(GetVideosSpec(up.videos, s, listing.ids).result.results.items, listing.index);
  }

  /** After a search that missed the cache and succeeded, the video entry of the
      input and the video-detail entry of the hits' ids hold the same result. */
  lemma FindTagsSharesDetail(up: Upstream, s: Partitions, input: string, numPages: int)
    requires Lookup(s.videos, input).None?
    ensures var st := FindTagsSpec(up, s, input, numPages);
      var ids := ListingOfPages(PageWalk(up.search, EscapeSpaces(input), Budget(numPages), None).pages).ids;
      st.result.Success? ==>
        && Lookup(st.after.videos, input) == Some(st.result.value)
        && Lookup(st.after.details, Join(ids, ",")) == Some(st.result.value)
  {
    var st := FindTagsSpec(up, s, input, numPages);
    var w := PageWalk(up.search, EscapeSpaces(input), Budget(numPages), None);
    if w.failure.None? {
      var listing := ListingOfPages(w.pages);
      var g := GetVideosSpec(up.videos, s, listing.ids);
      if g.result.failure.None? {
        match Filtered(g.result.results.items, listing.index)
        case Failure(e) =>
        case Success(kept) =>
          var res := g.result.results.(items := kept);
          assert st.after == g.after.(videos := g.after.videos[input := Some(res)],
                                      details := g.after.details[Join(listing.ids, ",") := Some(res)]);
      }
    }
  }

  /** A cached channel is returned as is, without asking the endpoint. */
  lemma GetChannelInfoHit(channels: ChannelSource, s: Partitions, channelId: string, info: ChannelInfo)
    requires Lookup(s.channels, channelId) == Some(info)
    ensures GetChannelInfoSpec(channels, s, channelId) == Step(Success(info), s)
  {
  }

  /** A channel, once returned, is served again whatever the endpoint would now answer. */
  lemma GetChannelInfoRepeat(channels: ChannelSource, channels': ChannelSource, s: Partitions, channelId: string)
    requires GetChannelInfoSpec(channels, s, channelId).result.Success?
    ensures var st := GetChannelInfoSpec(channels, s, channelId);
      GetChannelInfoSpec(channels', st.after, channelId) == st
  {
  }

  /** `GetChannelPlaylist` leaves the video and channel partitions alone. */
  lemma GetChannelPlaylistFrame(up: Upstream, s: Partitions, item: Item, vidCount: int)
    ensures var st := GetChannelPlaylistSpec(up, s, item, vidCount);
      st.after.videos == s.videos && st.after.channels == s.channels
  {
    var key := PlaylistKey(item.id, vidCount);
    if Lookup(s.playlists, key).None? && item.contentDetails.Some? && item.contentDetails.value.relatedPlaylists.Some? {
      var playlistId := item.contentDetails.value.relatedPlaylists.value.uploads;
      var w := PageWalk(up.playlistItems, playlistId, Budget(CalculateNumPages(vidCount)), None);
      if w.failure.None? {
        GetVideosFrame(up.videos, s, ListingOfPages(w.pages).ids);
      }
    }
  }

  /** After a playlist fetch that missed the cache and succeeded, the playlist
      entry and the video-detail entry of the listed ids hold the same result. */
  lemma GetChannelPlaylistSharesDetail(up: Upstream, s: Partitions, item: Item, vidCount: int)
    requires Lookup(s.playlists, PlaylistKey(item.id, vidCount)).None?
    requires item.contentDetails.Some? && item.contentDetails.value.relatedPlaylists.Some?
    ensures var st := GetChannelPlaylistSpec(up, s, item, vidCount);
      var playlistId := item.contentDetails.value.relatedPlaylists.value.uploads;
      var ids := ListingOfPages(PageWalk(up.playlistItems, playlistId, Budget(CalculateNumPages(vidCount)), None).pages).ids;
      st.result.Success? ==>
        && Lookup(st.after.playlists, PlaylistKey(item.id, vidCount)) == Some(st.result.value)
        && Lookup(st.after.details, Join(ids, ",")) == Some(st.result.value)
  {
  }

  /** Both cache invariants together. */
  ghost predicate CacheInvariant(s: Partitions) {
    VideosPopular(s) && ChannelsNonEmpty(s)
  }

  /** A new cache satisfies the invariants. */
  lemma CacheInvariantInitial()
    ensures CacheInvariant(Partitions(map[], map[], map[], map[]))
  {
  }

  /** Every public operation keeps both invariants, so no sequence of calls
      ever caches an unpopular search result or an empty channel. */
  lemma CacheInvariantKept(up: Upstream, s: Partitions, channelId: string, ids: seq<string>,
                           input: string, numPages: int, item: Item, vidCount: int)
    requires CacheInvariant(s)
    ensures CacheInvariant(GetChannelInfoSpec(up.channels, s, channelId).after)
    ensures CacheInvariant(GetVideosSpec(up.videos, s, ids).after)
    ensures CacheInvariant(FindTagsSpec(up, s, input, numPages).after)
    ensures CacheInvariant(GetChannelPlaylistSpec(up, s, item, vidCount).after)
  {
    GetChannelInfoNonEmpty(up.channels, s, channelId);
    GetVideosFrame(up.videos, s, ids);
    FindTagsPopular(up, s, input, numPages);
    FindTagsFrame(up, s, input, numPages);
    GetChannelPlaylistFrame(up, s, item, vidCount);
  }

  // ----- the client -----

  /** The batch loop of `GetVideos`: each batch walked in turn, its pages'
      items appended; a failure ends the loop with what was gathered so far. */
  method CollectBatches(src: Source<Video>, input: seq<string>, bound: nat)
    returns (items: seq<Video>, failure: Option<FetchError>)
    ensures Details(items, failure) == FetchDetails(src, input, bound)
  {
    items := [];
    var j := 0;
    while j < |input|
      invariant 0 <= j <= |input|
      invariant FetchDetails(src, input[..j], bound) == Details(items, None)
    {
      var got, failed := FetchBatch(src, input[j], bound);
      assert FetchDetails(src, [input[j]], bound) == Details(got, failed) by {
        assert got + [] == got;
      }
      FetchDetailsAppend(src, input[..j], [input[j]], bound);
      assert input[..j + 1] == input[..j] + [input[j]];
      if failed.Some? {
        FetchDetailsAppend(src, input[..j + 1], input[j + 1..], bound);
        assert input[..j + 1] + input[j + 1..] == input;
        return items + got, failed;
      }
      items := items + got;
      j := j + 1;
    }
    assert input[..|input|] == input;
    failure := None;
  }

  class YoutubeApi {
    const apiKey: string
    const cache: MemoryCache
    /** The endpoints the client calls, in place of HTTP requests. */
    const endpoints: Upstream

    /** `NewYoutubeApi`. */
    constructor (apiKey: string, cache: MemoryCache, endpoints: Upstream)
      ensures this.apiKey == apiKey && this.cache == cache && this.endpoints == endpoints
    {
      this.apiKey := apiKey;
      this.cache := cache;
      this.endpoints := endpoints;
    }

    method GetChannelInfo(channelId: string) returns (r: Result<ChannelInfo, Error>)
      modifies cache
      ensures Step(r, cache.Snapshot()) == GetChannelInfoSpec(endpoints.channels, old(cache.Snapshot()), channelId)
    {
      var cached := cache.GetChannel(channelId);
      if cached.Some? {
        return Success(cached.value);
      }
      var fetched := endpoints.channels(channelId);
      if fetched.Failure? {
        return Failure(ChannelInfoNotFound);
      }
      var cInfo := fetched.value;
      if |cInfo.items| == 0 {
        return Failure(NoChannelItems);
      }
      cache.SetChannel(channelId, Some(cInfo));
      return Success(cInfo);
    }

    method GetVideos(videoIds: seq<string>) returns (r: Fetched)
      modifies cache
      ensures Step(r, cache.Snapshot()) == GetVideosSpec(endpoints.videos, old(cache.Snapshot()), videoIds)
    {
      var videoIdsKey := Join(videoIds, ",");
      var cached := cache.GetVideoDetail(videoIdsKey);
      if cached.Some? {
        return Fetched(cached.value, None);
      }
      var input := BatchIteration(videoIds);
      var items, failure := CollectBatches(endpoints.videos, input, PagesPerBatch(|input|));
      r := Fetched(VideoResults(items, ""), failure);
      if failure.None? {
        cache.SetVideoDetail(videoIdsKey, Some(r.results));
      }
    }

    /** `getChannelPlaylist`. */
    method FetchChannelPlaylist(playlistId: string, numItems: int) returns (r: Result<VideoResults, FetchError>)
      modifies cache
      ensures Step(r, cache.Snapshot()) == ChannelPlaylistSpec(endpoints, old(cache.Snapshot()), playlistId, numItems)
    {
      var numPages := CalculateNumPages(numItems);
      var listing := FetchPlaylistVideos(endpoints.playlistItems, playlistId, numPages);
      if listing.Failure? {
        return Failure(listing.error);
      }
      var getVideos := GetVideos(listing.value.ids);
      if getVideos.failure.Some? {
        return Failure(getVideos.failure.value);
      }
      var processed := ProcessVideoItems(getVideos.results, listing.value.index);
      // the thumbnails were rewritten in the cached detail object itself
      cache.SetVideoDetail(Join(listing.value.ids, ","), Some(processed));
      return Success(processed);
    }

    method GetChannelPlaylist(item: Item, vidCount: int) returns (r: Result<VideoResults, Error>)
      modifies cache
      ensures Step(r, cache.Snapshot()) == GetChannelPlaylistSpec(endpoints, old(cache.Snapshot()), item, vidCount)
    {
      var cacheKey := PlaylistKey(item.id, vidCount);
      var cached := cache.GetPlaylist(cacheKey);
      if cached.Some? {
        return Success(cached.value);
      }
      if item.contentDetails.Some? && item.contentDetails.value.relatedPlaylists.Some? {
        var results := FetchChannelPlaylist(item.contentDetails.value.relatedPlaylists.value.uploads, vidCount);
        if results.Failure? {
          return Failure(InternalServerError);
        }
        cache.SetPlaylist(cacheKey, Some(results.value));
        return Success(results.value);
      } else {
        cache.SetPlaylist(cacheKey, None);
        return Failure(MissingUploadsPlaylist);
      }
    }

    method FindTags(input: string, numPages: int) returns (r: Result<VideoResults, Error>)
      modifies cache
      ensures Step(r, cache.Snapshot()) == FindTagsSpec(endpoints, old(cache.Snapshot()), input, numPages)
    {
      var cached := cache.GetVideo(input);
      if cached.Some? {
        return Success(cached.value);
      }
      var fSearch := EscapeSpaces(input);
      var listing := FollowPages(endpoints.search, fSearch, numPages);
      if listing.Failure? {
        return Failure(FetchFailed(listing.error));
      }
      var vidResults := GetVideos(listing.value.ids);
      if vidResults.failure.Some? {
        return Failure(FetchFailed(vidResults.failure.value));
      }
      var filtered := FilterAndMerge(vidResults.results.items, listing.value.index);
      if filtered.Failure? {
        return Failure(filtered.error);
      }
      var res := vidResults.results.(items := filtered.value);
      // the items were replaced in the cached detail object itself
      cache.SetVideoDetail(Join(listing.value.ids, ","), Some(res));
      cache.SetVideo(input, Some(res));
      return Success(res);
    }

    /** `SearchAndRetrieveTags`: `FindTags` with the page count clamped into [1, 5];
        `pages` holds the optional arguments. */
    method SearchAndRetrieveTags(search: string, pages: seq<int>) returns (r: Result<VideoResults, Error>)
      modifies cache
      ensures Step(r, cache.Snapshot()) == FindTagsSpec(endpoints, old(cache.Snapshot()), search, EffectivePages(pages))
    {
      r := FindTags(search, EffectivePages(pages));
    }
  }
}
