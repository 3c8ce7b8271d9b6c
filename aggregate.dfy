/** The filter and the two merges: `FindTags` keeps the videos with more than
    `MinViews` views and copies channel data from the search hits onto them;
    `processVideoItems` copies playlist thumbnails onto every video it can. */
module Aggregate {
  import opened Wrappers
  import opened Types
  import opened Text

  /** A kept video takes channel id, channel title and thumbnails from the
      search hit with its id; every other field stays as it was. */
  function MergeSnippet(v: Video, index: map<string, SnippetInfo>): (m: Video)
    ensures m.id == v.id && m.statistics == v.statistics
    ensures m.snippet == v.snippet.(channelId := m.snippet.channelId, channelTitle := m.snippet.channelTitle,
                                    thumbnails := m.snippet.thumbnails)
    ensures v.id in index ==>
      m.snippet.channelId == index[v.id].channelId && m.snippet.channelTitle == index[v.id].channelTitle
      && m.snippet.thumbnails == index[v.id].thumbnails
    ensures v.id !in index ==> m == v
  {
    if v.id in index then
      var info := index[v.id];
      v.(snippet := v.snippet.(channelId := info.channelId, channelTitle := info.channelTitle,
                               thumbnails := info.thumbnails))
    else v
  }

  /** A video takes the thumbnails listed for its id, and nothing else changes. */
  function WithThumbnails(v: Video, thumbnails: map<string, Thumbnails>): (m: Video)
    ensures m.id == v.id && m.statistics == v.statistics
    ensures m.snippet == v.snippet.(thumbnails := m.snippet.thumbnails)
    ensures m.snippet.thumbnails == if v.id in thumbnails then thumbnails[v.id] else v.snippet.thumbnails
  {
    if v.id in thumbnails then v.(snippet := v.snippet.(thumbnails := thumbnails[v.id])) else v
  }

  /** A view count that is reported but is not a decimal integer. */
  predicate Malformed(v: Video) {
    v.statistics.viewCount != "" && Atoi(v.statistics.viewCount).None?
  }

  /** A reported view count above `MinViews`. */
  predicate Popular(v: Video) {
    v.statistics.viewCount != "" && Atoi(v.statistics.viewCount).Some?
    && Atoi(v.statistics.viewCount).value > MinViews
  }

  /** The popular videos, in their original order. */
  function KeepPopular(items: seq<Video>): seq<Video>
    decreases |items|
  {
    if |items| == 0 then []
    else
      var last := items[|items| - 1];
      KeepPopular(items[..|items| - 1]) + (if Popular(last) then [last] else [])
  }

  function MergeAll(items: seq<Video>, index: map<string, SnippetInfo>): seq<Video>
    decreases |items|
  {
    if |items| == 0 then []
    else MergeAll(items[..|items| - 1], index) + [MergeSnippet(items[|items| - 1], index)]
  }

  /** The loop of `FindTags` over the lookup results, item by item: an empty view
      count is skipped, a malformed one aborts with its text, a count above
      `MinViews` keeps the merged video. */
  function Filtered(items: seq<Video>, index: map<string, SnippetInfo>): Result<seq<Video>, Error>
    decreases |items|
  {
    if |items| == 0 then Success([])
    else
      match Filtered(items[..|items| - 1], index)
      case Failure(e) => Failure(e)
      case Success(kept) =>
        var item := items[|items| - 1];
        if item.statistics.viewCount == "" then Success(kept)
        else
          match Atoi(item.statistics.viewCount)
          case None => Failure(BadViewCount(item.statistics.viewCount))
          case Some(views) => if views > MinViews then Success(kept + [MergeSnippet(item, index)]) else Success(kept)
  }

  /** The filter fails exactly when some view count is malformed. */
  lemma {:induction false} FilteredFails(items: seq<Video>, index: map<string, SnippetInfo>)
    ensures Filtered(items, index).Failure? <==> exists k :: 0 <= k < |items| && Malformed(items[k])
    decreases |items|
  {
    if |items| > 0 {
      var n := |items| - 1;
      var init := items[..n];
      FilteredFails(init, index);
      assert forall k :: 0 <= k < n ==> init[k] == items[k];
    }
  }

  /** A failure carries the text of the first malformed view count. */
  lemma {:induction false} FilteredFirstError(items: seq<Video>, index: map<string, SnippetInfo>)
    ensures Filtered(items, index).Failure? ==>
      exists k :: 0 <= k < |items| && Malformed(items[k])
        && Filtered(items, index).error == BadViewCount(items[k].statistics.viewCount)
        && forall j :: 0 <= j < k ==> !Malformed(items[j])
    decreases |items|
  {
    if |items| > 0 {
      var n := |items| - 1;
      var init := items[..n];
      FilteredFirstError(init, index);
      FilteredFails(init, index);
      assert forall k :: 0 <= k < n ==> init[k] == items[k];
      if Filtered(init, index).Success? && Filtered(items, index).Failure? {
        assert Malformed(items[n]);
      }
    }
  }

  /** On success the filter returns the popular videos, in order, merged. */
  lemma {:induction false} FilteredValue(items: seq<Video>, index: map<string, SnippetInfo>)
    ensures Filtered(items, index).Success? ==> Filtered(items, index).value == MergeAll(KeepPopular(items), index)
    decreases |items|
  {
    if |items| > 0 {
      var n := |items| - 1;
      var init := items[..n];
      FilteredValue(init, index);
      if Filtered(init, index).Success? && Filtered(items, index).Success? {
        if Popular(items[n]) {
          assert KeepPopular(items) == KeepPopular(init) + [items[n]];
          MergeAllSnoc(KeepPopular(init), items[n], index);
        } else {
          assert KeepPopular(items) == KeepPopular(init) + [] == KeepPopular(init);
          assert Filtered(items, index) == Filtered(init, index);
        }
      }
    }
  }

  /** Everything the filter returns has more than `MinViews` views. */
  lemma FilteredPopular(items: seq<Video>, index: map<string, SnippetInfo>)
    ensures Filtered(items, index).Success? ==> forall v :: v in Filtered(items, index).value ==> Popular(v)
  {
    FilteredValue(items, index);
    if Filtered(items, index).Success? {
      var kept := KeepPopular(items);
      MergeAllAt(kept, index);
      forall v | v in Filtered(items, index).value
        ensures Popular(v)
      {
        var k :| 0 <= k < |kept| && MergeAll(kept, index)[k] == v;
        KeepPopularMembers(items, kept[k]);
      }
    }
  }

  lemma MergeAllSnoc(items: seq<Video>, v: Video, index: map<string, SnippetInfo>)
    ensures MergeAll(items + [v], index) == MergeAll(items, index) + [MergeSnippet(v, index)]
  {
    assert (items + [v])[..|items|] == items;
  }

  /** A video is kept exactly when it is in the input and popular: empty and
      small view counts never pass. */
  lemma {:induction false} KeepPopularMembers(items: seq<Video>, v: Video)
    ensures v in KeepPopular(items) <==> v in items && Popular(v)
    decreases |items|
  {
    if |items| > 0 {
      var n := |items| - 1;
      KeepPopularMembers(items[..n], v);
      assert items == items[..n] + [items[n]];
    }
  }

  lemma {:induction false} MergeAllAt(items: seq<Video>, index: map<string, SnippetInfo>)
    ensures |MergeAll(items, index)| == |items|
    ensures forall k :: 0 <= k < |items| ==> MergeAll(items, index)[k] == MergeSnippet(items[k], index)
    decreases |items|
  {
    if |items| > 0 {
      MergeAllAt(items[..|items| - 1], index);
    }
  }

  /** The filter-and-merge loop of `FindTags`. */
  method FilterAndMerge(items: seq<Video>, index: map<string, SnippetInfo>) returns (r: Result<seq<Video>, Error>)
    ensures r == Filtered(items, index)
    ensures r.Success? ==> r.value == MergeAll(KeepPopular(items), index)
  {
    var filteredItems: seq<Video> := [];
    var k := 0;
    while k < |items|
      invariant 0 <= k <= |items|
      invariant Filtered(items[..k], index) == Success(filteredItems)
    {
      var item := items[k];
      assert items[..k + 1][..k] == items[..k];
      if item.statistics.viewCount != "" {
        var views := Atoi(item.statistics.viewCount);
        if views.None? {
          FilteredPrefixFailure(items, index, k + 1);
          return Failure(BadViewCount(item.statistics.viewCount));
        }
        if views.value > MinViews {
          filteredItems := filteredItems + [MergeSnippet(item, index)];
        }
      }
      k := k + 1;
    }
    assert items[..|items|] == items;
    r := Success(filteredItems);
    FilteredValue(items, index);
  }

  /** Once a prefix fails, the whole list fails with the same error. */
  lemma {:induction false} FilteredPrefixFailure(items: seq<Video>, index: map<string, SnippetInfo>, k: nat)
    requires k <= |items| && Filtered(items[..k], index).Failure?
    ensures Filtered(items, index) == Filtered(items[..k], index)
    decreases |items| - k
  {
    if k < |items| {
      assert items[..k + 1][..k] == items[..k];
      FilteredPrefixFailure(items, index, k + 1);
    } else {
      assert items[..k] == items;
    }
  }

  /** Every video with its listed thumbnails, in the original order. */
  function ThumbnailsMerged(items: seq<Video>, thumbnails: map<string, Thumbnails>): seq<Video>
    decreases |items|
  {
    if |items| == 0 then []
    else ThumbnailsMerged(items[..|items| - 1], thumbnails) + [WithThumbnails(items[|items| - 1], thumbnails)]
  }

  lemma {:induction false} ThumbnailsMergedAt(items: seq<Video>, thumbnails: map<string, Thumbnails>)
    ensures |ThumbnailsMerged(items, thumbnails)| == |items|
    ensures forall k :: 0 <= k < |items| ==> ThumbnailsMerged(items, thumbnails)[k] == WithThumbnails(items[k], thumbnails)
    decreases |items|
  {
    if |items| > 0 {
      ThumbnailsMergedAt(items[..|items| - 1], thumbnails);
    }
  }

  /** `processVideoItems`: rewrites each video's thumbnails in place; no video is
      added, dropped or moved. */
  method ProcessVideoItems(videos: VideoResults, thumbnails: map<string, Thumbnails>) returns (r: VideoResults)
    ensures r == VideoResults(ThumbnailsMerged(videos.items, thumbnails), videos.nextPageToken)
    ensures |r.items| == |videos.items|
    ensures forall k :: 0 <= k < |r.items| ==> r.items[k] == WithThumbnails(videos.items[k], thumbnails)
  {
    var items := videos.items;
    var k := 0;
    while k < |items|
      invariant 0 <= k <= |items| && |items| == |videos.items|
      invariant forall j :: 0 <= j < k ==> items[j] == WithThumbnails(videos.items[j], thumbnails)
      invariant forall j :: k <= j < |items| ==> items[j] == videos.items[j]
    {
      items := items[k := WithThumbnails(items[k], thumbnails)];
      k := k + 1;
    }
    ThumbnailsMergedAt(videos.items, thumbnails);
    r := VideoResults(items, videos.nextPageToken);
  }
}
