/** `MemoryCache`: four independent string-keyed partitions. A stored `None`
    is Go's stored `nil`, which a later read cannot tell from an absent key. */
module Caching {
  import opened Wrappers
  import opened Types

  /** A Go map read `m[key]` on a map of pointers: the stored value, or nil when absent. */
  function Lookup<V>(m: map<string, Option<V>>, key: string): (v: Option<V>)
    ensures v.Some? <==> key in m && m[key].Some?
    ensures v.Some? ==> m[key] == v
  {
    if key in m then m[key] else None
  }

  /** The contents of the four partitions at one moment. */
  datatype Partitions = Partitions(
    videos: map<string, Option<VideoResults>>,
    channels: map<string, Option<ChannelInfo>>,
    playlists: map<string, Option<VideoResults>>,
    details: map<string, Option<VideoResults>>)

  class MemoryCache {
    var videoCache: map<string, Option<VideoResults>>
    var channelCache: map<string, Option<ChannelInfo>>
    var playlistCache: map<string, Option<VideoResults>>
    var videoDetailsCache: map<string, Option<VideoResults>>

    /** The four partitions as one value. */
    function Snapshot(): Partitions
      reads this
    {
      Partitions(videoCache, channelCache, playlistCache, videoDetailsCache)
    }

    /** `NewMemoryCache`: four empty partitions. */
    constructor ()
      ensures Snapshot() == Partitions(map[], map[], map[], map[])
      ensures forall key :: GetVideo(key) == None && GetChannel(key) == None
      ensures forall key :: GetPlaylist(key) == None && GetVideoDetail(key) == None
    {
      videoCache := map[];
      channelCache := map[];
      playlistCache := map[];
      videoDetailsCache := map[];
    }

    function GetVideo(key: string): (v: Option<VideoResults>)
      reads this
      ensures v.Some? <==> key in videoCache && videoCache[key].Some?
      ensures v.Some? ==> videoCache[key] == v
    {
      Lookup(videoCache, key)
    }

    method SetVideo(key: string, video: Option<VideoResults>)
      modifies this
      ensures videoCache == old(videoCache)[key := video]
      ensures channelCache == old(channelCache) && playlistCache == old(playlistCache)
      ensures videoDetailsCache == old(videoDetailsCache)
      ensures GetVideo(key) == video
    {
      videoCache := videoCache[key := video];
    }

    function GetChannel(key: string): (v: Option<ChannelInfo>)
      reads this
      ensures v.Some? <==> key in channelCache && channelCache[key].Some?
      ensures v.Some? ==> channelCache[key] == v
    {
      Lookup(channelCache, key)
    }

    method SetChannel(key: string, channel: Option<ChannelInfo>)
      modifies this
      ensures channelCache == old(channelCache)[key := channel]
      ensures videoCache == old(videoCache) && playlistCache == old(playlistCache)
      ensures videoDetailsCache == old(videoDetailsCache)
      ensures GetChannel(key) == channel
    {
      channelCache := channelCache[key := channel];
    }

    function GetPlaylist(key: string): (v: Option<VideoResults>)
      reads this
      ensures v.Some? <==> key in playlistCache && playlistCache[key].Some?
      ensures v.Some? ==> playlistCache[key] == v
    {
      Lookup(playlistCache, key)
    }

    method SetPlaylist(key: string, playlist: Option<VideoResults>)
      modifies this
      ensures playlistCache == old(playlistCache)[key := playlist]
      ensures videoCache == old(videoCache) && channelCache == old(channelCache)
      ensures videoDetailsCache == old(videoDetailsCache)
      ensures GetPlaylist(key) == playlist
    {
      playlistCache := playlistCache[key := playlist];
    }

    function GetVideoDetail(key: string): (v: Option<VideoResults>)
      reads this
      ensures v.Some? <==> key in videoDetailsCache && videoDetailsCache[key].Some?
      ensures v.Some? ==> videoDetailsCache[key] == v
    {
      Lookup(videoDetailsCache, key)
    }

    method SetVideoDetail(key: string, detail: Option<VideoResults>)
      modifies this
      ensures videoDetailsCache == old(videoDetailsCache)[key := detail]
      ensures videoCache == old(videoCache) && channelCache == old(channelCache)
      ensures playlistCache == old(playlistCache)
      ensures GetVideoDetail(key) == detail
    {
      videoDetailsCache := videoDetailsCache[key := detail];
    }

    function GetServiceName(): (name: string)
      ensures name == "memory-cache"
    {
      "memory-cache"
    }
  }
}
