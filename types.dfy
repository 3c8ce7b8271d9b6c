/** The records of the aggregation layer, reduced to the fields its logic reads
    or copies. Go pointers to these records become values. */
module Types {
  import opened Wrappers

  /** `MinViews`: a search result is kept only above this many views. */
  const MinViews: int := 1000

  /** The largest number of ids one video lookup may carry. */
  const BatchSize: nat := 50

  /** One thumbnail variant. */
  datatype Thumbnail = Thumbnail(url: string, width: int, height: int)

  /** `Thumbnails`: the three optional size variants. */
  datatype Thumbnails = Thumbnails(default: Option<Thumbnail>, medium: Option<Thumbnail>, high: Option<Thumbnail>)

  datatype VideoSnippet = VideoSnippet(
    channelId: string,
    channelTitle: string,
    publishedAt: string,
    title: string,
    description: string,
    thumbnails: Thumbnails,
    tags: seq<string>,
    formattedTags: string)

  /** Counters arrive as decimal strings; an empty string means "not reported". */
  datatype VideoStatistics = VideoStatistics(
    viewCount: string,
    likeCount: string,
    dislikeCount: string,
    favoriteCount: string,
    commentCount: string)

  /** `Video`: one result of the lookup-by-id endpoint. */
  datatype Video = Video(id: string, snippet: VideoSnippet, statistics: VideoStatistics)

  /** `VideoResults`: the value stored in the video, playlist and video-detail partitions. */
  datatype VideoResults = VideoResults(items: seq<Video>, nextPageToken: string)

  datatype RelatedPlaylists = RelatedPlaylists(likes: string, uploads: string)

  datatype ContentDetails = ContentDetails(relatedPlaylists: Option<RelatedPlaylists>)

  datatype ChannelStatistics = ChannelStatistics(
    viewCount: string,
    subscriberCount: string,
    hiddenSubscriberCount: bool,
    videoCount: string)

  /** `Item`: a channel record; its snippet is never read by the layer and is left out. */
  datatype Item = Item(id: string, contentDetails: Option<ContentDetails>, statistics: ChannelStatistics)

  /** `ChannelInfo`: the value stored in the channel partition. */
  datatype ChannelInfo = ChannelInfo(items: seq<Item>, nextPageToken: string)

  /** `VidSnippetInfo`: what a search hit contributes to the merge. */
  datatype SnippetInfo = SnippetInfo(channelTitle: string, channelId: string, thumbnails: Thumbnails)

  /** A listing entry reduced to its video id and the data kept for that id:
      a search hit carries a `SnippetInfo`, a playlist entry its `Thumbnails`. */
  datatype Tagged<V> = Tagged(videoId: string, data: V)

  /** One decoded response page: its items and the continuation token ("" = last page). */
  datatype Page<T> = Page(items: seq<T>, nextPageToken: string)

  /** Why a page could not be obtained: `http.Get`/`io.ReadAll` failed, or `json.Unmarshal` did. */
  datatype FetchError = Transport | Decode

  /** The errors the layer returns to its callers. */
  datatype Error =
    | FetchFailed(cause: FetchError)  // passed through unchanged
    | ChannelInfoNotFound           // "channel info not found"
    | NoChannelItems                // "no item available in cInfo"
    | InternalServerError           // "internal server error"
    | MissingUploadsPlaylist        // "contentDetails or RelatedPlaylists are nil"
    | BadViewCount(viewCount: string)  // strconv.Atoi rejected a view count

  /** A paged endpoint: given the request's target (query, playlist id or id batch)
      and its page token (`None` on the first request, which carries no
      `pageToken` parameter), the decoded page or the failure. */
  type Source<T> = (string, Option<string>) -> Result<Page<T>, FetchError>

  /** The channel endpoint: one unpaged request per channel id. */
  type ChannelSource = string -> Result<ChannelInfo, FetchError>

  /** The four upstream endpoints the layer calls. */
  datatype Upstream = Upstream(
    search: Source<Tagged<SnippetInfo>>,
    playlistItems: Source<Tagged<Thumbnails>>,
    videos: Source<Video>,
    channels: ChannelSource)
}
