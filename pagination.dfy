/** The paginators: following a continuation token through a paged endpoint.
    `PageWalk` is the specification every paginator loop is proved against;
    whether the last page's items are kept is decided by the caller. */
module Pagination {
  import opened Wrappers
  import opened Types
  import opened Paging

  /** What a paginator did: the page token of each request it sent (`None` for
      the first, tokenless one), the pages it got back in order, and the failure
      that stopped it, if any. */
  datatype Walk<T> = Walk(requests: seq<Option<string>>, pages: seq<Page<T>>, failure: Option<FetchError>)

  /** Fetch with `token`, then keep following `nextPageToken` until a page
      carries the empty token, a request fails, or `budget` requests were sent. */
  function PageWalk<T>(src: Source<T>, target: string, budget: nat, token: Option<string>): Walk<T>
    decreases budget
  {
    if budget == 0 then Walk([], [], None)
    else
      match src(target, token)
      case Failure(e) => Walk([token], [], Some(e))
      case Success(p) =>
        if p.nextPageToken == "" then Walk([token], [p], None)
        else
          var rest := PageWalk(src, target, budget - 1, Some(p.nextPageToken));
          Walk([token] + rest.requests, [p] + rest.pages, rest.failure)
  }

  /** A walk preceded by requests already sent and pages already received. */
  function Then<T>(requests: seq<Option<string>>, pages: seq<Page<T>>, w: Walk<T>): Walk<T> {
    Walk(requests + w.requests, pages + w.pages, w.failure)
  }

  /** The items of all pages, in page order. */
  function AllItems<T>(pages: seq<Page<T>>): seq<T>
    decreases |pages|
  {
    if |pages| == 0 then []
    else AllItems(pages[..|pages| - 1]) + pages[|pages| - 1].items
  }

  /** The items of the pages that carry a non-empty continuation token. */
  function ItemsBeforeEnd<T>(pages: seq<Page<T>>): seq<T>
    decreases |pages|
  {
    if |pages| == 0 then []
    else
      var last := pages[|pages| - 1];
      ItemsBeforeEnd(pages[..|pages| - 1]) + (if last.nextPageToken != "" then last.items else [])
  }

  /** The video ids of listing entries, in order (the `videos` slice). */
  function IdsOf<V>(entries: seq<Tagged<V>>): seq<string>
    decreases |entries|
  {
    if |entries| == 0 then []
    else IdsOf(entries[..|entries| - 1]) + [entries[|entries| - 1].videoId]
  }

  /** The map written entry by entry, `m[id] = data` (the `vidIds` and `thumbnails` maps). */
  function IndexOf<V>(entries: seq<Tagged<V>>): map<string, V>
    decreases |entries|
  {
    if |entries| == 0 then map[]
    else
      var last := entries[|entries| - 1];
      IndexOf(entries[..|entries| - 1])[last.videoId := last.data]
  }

  /** The ids of a listing and, per id, the data of its last entry. */
  datatype Listing<V> = Listing(ids: seq<string>, index: map<string, V>)

  /** What the loops have recorded after reading `entries`. */
  function ListingOf<V>(entries: seq<Tagged<V>>): Listing<V> {
    Listing(IdsOf(entries), IndexOf(entries))
  }

  /** The same, page by page. */
  function ListingOfPages<V>(pages: seq<Page<Tagged<V>>>): Listing<V>
    decreases |pages|
  {
    if |pages| == 0 then Listing([], map[])
    else
      var before := ListingOfPages(pages[..|pages| - 1]);
      var added := ListingOf(pages[|pages| - 1].items);
      Listing(before.ids + added.ids, before.index + added.index)
  }

  // ----- properties of a walk -----

  /** The three ways one more request can go, seen from a walk already under way. */
  lemma WalkFails<T>(src: Source<T>, target: string, budget: nat, token: Option<string>,
                     requests: seq<Option<string>>, pages: seq<Page<T>>, e: FetchError)
    requires budget > 0 && src(target, token) == Failure(e)
    ensures Then(requests, pages, PageWalk(src, target, budget, token)) == Walk(requests + [token], pages, Some(e))
  {
    assert pages + [] == pages;
  }

  lemma WalkEnds<T>(src: Source<T>, target: string, budget: nat, token: Option<string>,
                    requests: seq<Option<string>>, pages: seq<Page<T>>, p: Page<T>)
    requires budget > 0 && src(target, token) == Success(p) && p.nextPageToken == ""
    ensures Then(requests, pages, PageWalk(src, target, budget, token)) == Walk(requests + [token], pages + [p], None)
  {
  }

  lemma WalkContinues<T>(src: Source<T>, target: string, budget: nat, token: Option<string>,
                         requests: seq<Option<string>>, pages: seq<Page<T>>, p: Page<T>)
    requires budget > 0 && src(target, token) == Success(p) && p.nextPageToken != ""
    ensures Then(requests, pages, PageWalk(src, target, budget, token))
         == Then(requests + [token], pages + [p], PageWalk(src, target, budget - 1, Some(p.nextPageToken)))
  {
    var rest := PageWalk(src, target, budget - 1, Some(p.nextPageToken));
    assert requests + ([token] + rest.requests) == (requests + [token]) + rest.requests;
    assert pages + ([p] + rest.pages) == (pages + [p]) + rest.pages;
  }

  lemma WalkExhausted<T>(src: Source<T>, target: string, token: Option<string>,
                         requests: seq<Option<string>>, pages: seq<Page<T>>)
    ensures Then(requests, pages, PageWalk(src, target, 0, token)) == Walk(requests, pages, None)
  {
    assert requests + [] == requests;
    assert pages + [] == pages;
  }

  /** At most `budget` requests; one page per request except a failed last one;
      the first request carries the starting token. */
  lemma {:induction false} WalkShape<T>(src: Source<T>, target: string, budget: nat, token: Option<string>)
    ensures var w := PageWalk(src, target, budget, token);
      && |w.requests| <= budget
      && |w.requests| == |w.pages| + (if w.failure.Some? then 1 else 0)
      && (budget > 0 ==> |w.requests| > 0 && w.requests[0] == token)
    decreases budget
  {
    if budget > 0 {
      match src(target, token)
      case Failure(_) =>
      case Success(p) =>
        if p.nextPageToken != "" {
          WalkShape(src, target, budget - 1, Some(p.nextPageToken));
        }
    }
  }

  /** Every request after the first carries the token of the page before it,
      and that token is never empty. */
  lemma {:induction false} WalkContinuation<T>(src: Source<T>, target: string, budget: nat, token: Option<string>)
    ensures var w := PageWalk(src, target, budget, token);
      forall k :: 0 <= k < |w.requests| - 1 ==>
        k < |w.pages| && w.pages[k].nextPageToken != "" && w.requests[k + 1] == Some(w.pages[k].nextPageToken)
    decreases budget
  {
    if budget > 0 {
      match src(target, token)
      case Failure(_) =>
      case Success(p) =>
        if p.nextPageToken != "" {
          var rest := PageWalk(src, target, budget - 1, Some(p.nextPageToken));
          var w := PageWalk(src, target, budget, token);
          WalkContinuation(src, target, budget - 1, Some(p.nextPageToken));
          WalkShape(src, target, budget - 1, Some(p.nextPageToken));
          forall k | 0 <= k < |w.requests| - 1
            ensures k < |w.pages| && w.pages[k].nextPageToken != ""
            ensures w.requests[k + 1] == Some(w.pages[k].nextPageToken)
          {
            assert w.requests[k + 1] == rest.requests[k];
            if k > 0 {
              assert w.pages[k] == rest.pages[k - 1];
            }
          }
        }
    }
  }

  /** Each page is what the endpoint answered to the matching request, and a
      failure is the endpoint's answer to the last request. */
  lemma {:induction false} WalkResponses<T>(src: Source<T>, target: string, budget: nat, token: Option<string>)
    ensures var w := PageWalk(src, target, budget, token);
      forall k :: 0 <= k < |w.pages| ==> k < |w.requests| && src(target, w.requests[k]) == Success(w.pages[k])
    decreases budget
  {
    if budget > 0 {
      match src(target, token)
      case Failure(_) =>
      case Success(p) =>
        if p.nextPageToken != "" {
          var rest := PageWalk(src, target, budget - 1, Some(p.nextPageToken));
          var w := PageWalk(src, target, budget, token);
          assert w == Walk([token] + rest.requests, [p] + rest.pages, rest.failure);
          WalkResponses(src, target, budget - 1, Some(p.nextPageToken));
          WalkShape(src, target, budget - 1, Some(p.nextPageToken));
          forall k | 0 < k < |w.pages|
            ensures k < |w.requests| && src(target, w.requests[k]) == Success(w.pages[k])
          {
            assert w.requests[k] == rest.requests[k - 1];
            assert w.pages[k] == rest.pages[k - 1];
          }
        }
    }
  }

  /** A failed walk failed on its last request. */
  lemma {:induction false} WalkFailsLast<T>(src: Source<T>, target: string, budget: nat, token: Option<string>)
    ensures var w := PageWalk(src, target, budget, token);
      w.failure.Some? ==> |w.requests| > 0 && src(target, w.requests[|w.requests| - 1]) == Failure(w.failure.value)
    decreases budget
  {
    if budget > 0 {
      match src(target, token)
      case Failure(_) =>
      case Success(p) =>
        if p.nextPageToken != "" {
          var rest := PageWalk(src, target, budget - 1, Some(p.nextPageToken));
          WalkFailsLast(src, target, budget - 1, Some(p.nextPageToken));
          var w := PageWalk(src, target, budget, token);
          assert w == Walk([token] + rest.requests, [p] + rest.pages, rest.failure);
          if rest.failure.Some? {
            assert w.requests[|w.requests| - 1] == rest.requests[|rest.requests| - 1];
          }
        }
    }
  }

  /** A walk that neither failed nor used its whole budget ended on a page with
      the empty token; every page before the last one carried a token. */
  lemma {:induction false} WalkStops<T>(src: Source<T>, target: string, budget: nat, token: Option<string>)
    ensures var w := PageWalk(src, target, budget, token);
      && (w.failure.None? && |w.requests| < budget ==> |w.pages| > 0 && w.pages[|w.pages| - 1].nextPageToken == "")
      && (forall k :: 0 <= k < |w.pages| - 1 ==> w.pages[k].nextPageToken != "")
    decreases budget
  {
    if budget > 0 {
      match src(target, token)
      case Failure(_) =>
      case Success(p) =>
        if p.nextPageToken != "" {
          var rest := PageWalk(src, target, budget - 1, Some(p.nextPageToken));
          var w := PageWalk(src, target, budget, token);
          WalkStops(src, target, budget - 1, Some(p.nextPageToken));
          forall k | 0 < k < |w.pages| - 1
            ensures w.pages[k].nextPageToken != ""
          {
            assert w.pages[k] == rest.pages[k - 1];
          }
          if w.failure.None? && |w.requests| < budget {
            assert w.pages[|w.pages| - 1] == rest.pages[|rest.pages| - 1];
          }
        }
    }
  }

  lemma {:induction false} ItemsBeforeEndAllContinue<T>(pages: seq<Page<T>>)
    requires forall k :: 0 <= k < |pages| ==> pages[k].nextPageToken != ""
    ensures ItemsBeforeEnd(pages) == AllItems(pages)
    decreases |pages|
  {
    if |pages| > 0 {
      ItemsBeforeEndAllContinue(pages[..|pages| - 1]);
    }
  }

  /** The two ways of collecting differ exactly by the final page: keeping every
      page adds the items of a last page whose token is empty; skipping such
      pages loses them. */
  lemma WalkItems<T>(src: Source<T>, target: string, budget: nat, token: Option<string>)
    ensures var w := PageWalk(src, target, budget, token);
      AllItems(w.pages) == ItemsBeforeEnd(w.pages)
        + (if |w.pages| > 0 && w.pages[|w.pages| - 1].nextPageToken == "" then w.pages[|w.pages| - 1].items else [])
  {
    var w := PageWalk(src, target, budget, token);
    WalkStops(src, target, budget, token);
    if |w.pages| > 0 {
      var init := w.pages[..|w.pages| - 1];
      ItemsBeforeEndAllContinue(init);
    }
  }

  // ----- the index built beside the id list -----

  /** An id is in the index exactly when some entry has it, and it maps to the
      data of the last entry with that id. */
  lemma {:induction false} IndexOfKeys<V>(entries: seq<Tagged<V>>, id: string)
    ensures id in IndexOf(entries) <==> exists k :: 0 <= k < |entries| && entries[k].videoId == id
    decreases |entries|
  {
    if |entries| > 0 {
      var n := |entries| - 1;
      var init := entries[..n];
      IndexOfKeys(init, id);
      if entries[n].videoId != id && exists k :: 0 <= k < |entries| && entries[k].videoId == id {
        var k :| 0 <= k < |entries| && entries[k].videoId == id;
        assert init[k] == entries[k];
      }
    }
  }

  lemma {:induction false} IndexOfLast<V>(entries: seq<Tagged<V>>, id: string)
    ensures id in IndexOf(entries) ==> exists k :: (0 <= k < |entries| && entries[k].videoId == id
      && IndexOf(entries)[id] == entries[k].data
      && forall j :: k < j < |entries| ==> entries[j].videoId != id)
    decreases |entries|
  {
    if |entries| > 0 {
      var n := |entries| - 1;
      var init := entries[..n];
      IndexOfLast(init, id);
      if entries[n].videoId != id && id in IndexOf(entries) {
        var k :| 0 <= k < |init| && init[k].videoId == id && IndexOf(init)[id] == init[k].data
          && forall j :: k < j < |init| ==> init[j].videoId != id;
        assert entries[k] == init[k];
      }
    }
  }

  lemma {:induction false} IdsOfShape<V>(entries: seq<Tagged<V>>)
    ensures |IdsOf(entries)| == |entries|
    ensures forall k :: 0 <= k < |entries| ==> IdsOf(entries)[k] == entries[k].videoId
    decreases |entries|
  {
    if |entries| > 0 {
      IdsOfShape(entries[..|entries| - 1]);
    }
  }

  // ----- the paginator loops -----

  /** What a keep-last paginator returns for a walk: the failure that stopped
      it, or the ids and index of every page it received. */
  function Listed<V>(w: Walk<Tagged<V>>): Result<Listing<V>, FetchError> {
    if w.failure.Some? then Failure(w.failure.value) else Success(ListingOfPages(w.pages))
  }

  /** The loop of `FindTags` (and of `fetchPlaylistVideos`): request page i with
      the previous page's token (no token for i = 0), record every entry's id
      and data, stop after a page with the empty token or after `numPages`
      requests; the first failure aborts and discards what was collected. */
  method FollowPages<V>(src: Source<Tagged<V>>, target: string, numPages: int)
    returns (r: Result<Listing<V>, FetchError>)
    ensures Listed(PageWalk(src, target, Budget(numPages), None)) == r
  {
    var listing: Listing<V> := Listing([], map[]);
    var nextPage := "";
    ghost var pages: seq<Page<Tagged<V>>> := [];
    ghost var budget := Budget(numPages);
    ghost var whole := PageWalk(src, target, budget, None);
    ghost var requests: seq<Option<string>> := [];
    var i := 0;
    while i < numPages
      invariant 0 <= i <= budget
      invariant whole == Then(requests, pages, PageWalk(src, target, budget - i, if i == 0 then None else Some(nextPage)))
      invariant listing == ListingOfPages(pages)
    {
      var token := if i == 0 then None else Some(nextPage);
      var res;
      ghost var before := pages;
      res, requests, pages := Request(src, target, budget - i, token, requests, pages);
      if res.Failure? {
        r := Failure(res.error);
        return;
      }
      listing := RecordPage(listing, before, res.value);
      nextPage := res.value.nextPageToken;
      if nextPage == "" {
        r := Success(listing);
        return;
      }
      i := i + 1;
    }
    WalkExhausted(src, target, if i == 0 then None else Some(nextPage), requests, pages);
    r := Success(listing);
  }

  /** One request of a paginator: the page or failure for `token`, and how the
      walk from here continues. */
  method Request<T>(src: Source<T>, target: string, ghost budget: nat, token: Option<string>,
                    ghost requests: seq<Option<string>>, ghost pages: seq<Page<T>>)
    returns (res: Result<Page<T>, FetchError>, ghost requests': seq<Option<string>>, ghost pages': seq<Page<T>>)
    requires budget > 0
    ensures res == src(target, token) && requests' == requests + [token]
    ensures pages' == if res.Success? then pages + [res.value] else pages
    ensures Then(requests, pages, PageWalk(src, target, budget, token))
         == if res.Success? && res.value.nextPageToken != ""
            then Then(requests', pages', PageWalk(src, target, budget - 1, Some(res.value.nextPageToken)))
            else Walk(requests', pages', if res.Failure? then Some(res.error) else None)
  {
    res := src(target, token);
    requests' := requests + [token];
    if res.Failure? {
      pages' := pages;
      WalkFails(src, target, budget, token, requests, pages, res.error);
    } else {
      pages' := pages + [res.value];
      if res.value.nextPageToken == "" {
        WalkEnds(src, target, budget, token, requests, pages, res.value);
      } else {
        WalkContinues(src, target, budget, token, requests, pages, res.value);
      }
    }
  }

  lemma ItemsBeforeEndSnoc<T>(pages: seq<Page<T>>, p: Page<T>)
    ensures ItemsBeforeEnd(pages + [p]) == ItemsBeforeEnd(pages) + (if p.nextPageToken != "" then p.items else [])
  {
    assert (pages + [p])[..|pages|] == pages;
  }

  /** The inner loop over one page's entries: append each id, write each id's data. */
  method RecordPage<V>(listing: Listing<V>, ghost pages: seq<Page<Tagged<V>>>, page: Page<Tagged<V>>)
    returns (listing': Listing<V>)
    requires listing == ListingOfPages(pages)
    ensures listing' == ListingOfPages(pages + [page])
  {
    var items := page.items;
    var videos, vidIds := listing.ids, listing.index;
    var k := 0;
    while k < |items|
      invariant 0 <= k <= |items|
      invariant videos == listing.ids + IdsOf(items[..k]) && vidIds == listing.index + IndexOf(items[..k])
    {
      var vid := items[k];
      RecordStep(listing, items, k);
      videos := videos + [vid.videoId];
      vidIds := vidIds[vid.videoId := vid.data];
      k := k + 1;
    }
    assert items[..|items|] == items;
    ListingOfPagesSnoc(pages, page);
    listing' := Listing(videos, vidIds);
  }

  lemma RecordStep<V>(listing: Listing<V>, items: seq<Tagged<V>>, k: nat)
    requires k < |items|
    ensures listing.ids + IdsOf(items[..k + 1]) == (listing.ids + IdsOf(items[..k])) + [items[k].videoId]
    ensures listing.index + IndexOf(items[..k + 1]) == (listing.index + IndexOf(items[..k]))[items[k].videoId := items[k].data]
  {
    assert items[..k + 1][..k] == items[..k];
  }

  lemma ListingOfPagesSnoc<V>(pages: seq<Page<Tagged<V>>>, page: Page<Tagged<V>>)
    ensures ListingOfPages(pages + [page])
         == Listing(ListingOfPages(pages).ids + IdsOf(page.items), ListingOfPages(pages).index + IndexOf(page.items))
  {
    assert (pages + [page])[..|pages|] == pages;
  }

  lemma {:induction false} IdsOfAppend<V>(a: seq<Tagged<V>>, b: seq<Tagged<V>>)
    ensures IdsOf(a + b) == IdsOf(a) + IdsOf(b)
    decreases |b|
  {
    if |b| > 0 {
      assert (a + b)[..|a + b| - 1] == a + b[..|b| - 1];
      IdsOfAppend(a, b[..|b| - 1]);
    } else {
      assert a + b == a;
    }
  }

  lemma {:induction false} IndexOfAppend<V>(a: seq<Tagged<V>>, b: seq<Tagged<V>>)
    ensures IndexOf(a + b) == IndexOf(a) + IndexOf(b)
    decreases |b|
  {
    if |b| > 0 {
      assert (a + b)[..|a + b| - 1] == a + b[..|b| - 1];
      IndexOfAppend(a, b[..|b| - 1]);
    } else {
      assert a + b == a;
    }
  }

  /** Recording page by page gives what recording all entries at once gives. */
  lemma {:induction false} ListingOfPagesAll<V>(pages: seq<Page<Tagged<V>>>)
    ensures ListingOfPages(pages) == ListingOf(AllItems(pages))
    decreases |pages|
  {
    if |pages| > 0 {
      var init := pages[..|pages| - 1];
      ListingOfPagesAll(init);
      IdsOfAppend(AllItems(init), pages[|pages| - 1].items);
      IndexOfAppend(AllItems(init), pages[|pages| - 1].items);
    }
  }

  /** `fetchPlaylistVideos`: the same loop over the playlist-items endpoint,
      collecting video ids and their thumbnails. */
  method FetchPlaylistVideos(src: Source<Tagged<Thumbnails>>, playlistId: string, numPages: int)
    returns (r: Result<Listing<Thumbnails>, FetchError>)
    ensures Listed(PageWalk(src, playlistId, Budget(numPages), None)) == r
  {
    r := FollowPages(src, playlistId, numPages);
  }

  /** The inner loop of `GetVideos` for one batch: the token is tested before the
      page's items are appended, so a page with the empty token adds nothing;
      on a failure the items gathered so far are returned with it. */
  method FetchBatch<T>(src: Source<T>, batch: string, bound: int)
    returns (items: seq<T>, failure: Option<FetchError>)
    ensures var w := PageWalk(src, batch, Budget(bound), None);
      items == ItemsBeforeEnd(w.pages) && failure == w.failure
  {
    items := [];
    failure := None;
    ghost var requests: seq<Option<string>> := [];
    var nextPage := "";
    ghost var pages: seq<Page<T>> := [];
    ghost var budget := Budget(bound);
    ghost var whole := PageWalk(src, batch, budget, None);
    var i := 0;
    while i < bound
      invariant 0 <= i <= budget
      invariant whole == Then(requests, pages, PageWalk(src, batch, budget - i, if i == 0 then None else Some(nextPage)))
      invariant items == ItemsBeforeEnd(pages)
    {
      var token := if i == 0 then None else Some(nextPage);
      var res;
      ghost var before := pages;
      res, requests, pages := Request(src, batch, budget - i, token, requests, pages);
      if res.Failure? {
        failure := Some(res.error);
        return;
      }
      nextPage := res.value.nextPageToken;
      ItemsBeforeEndSnoc(before, res.value);
      if nextPage == "" {
        return;
      }
      items := items + res.value.items;
      i := i + 1;
    }
    WalkExhausted(src, batch, if i == 0 then None else Some(nextPage), requests, pages);
  }

  /** The outcome of `GetVideos`' batch loop: the items gathered and the failure, if any. */
  datatype Details = Details(items: seq<Video>, failure: Option<FetchError>)

  /** Batches in order, each walked with the same page bound; the first failure
      stops the loop and keeps what was gathered up to it. */
  function FetchDetails(src: Source<Video>, batches: seq<string>, bound: nat): Details
    decreases |batches|
  {
    if |batches| == 0 then Details([], None)
    else
      var w := PageWalk(src, batches[0], bound, None);
      var got := ItemsBeforeEnd(w.pages);
      if w.failure.Some? then Details(got, w.failure)
      else
        var rest := FetchDetails(src, batches[1..], bound);
        Details(got + rest.items, rest.failure)
  }

  /** Batches are processed one after another: the outcome for `a + b` is the
      outcome for `a`, followed by that for `b` unless `a` already failed. */
  lemma {:induction false} FetchDetailsAppend(src: Source<Video>, a: seq<string>, b: seq<string>, bound: nat)
    ensures var da := FetchDetails(src, a, bound);
      FetchDetails(src, a + b, bound)
        == if da.failure.Some? then da
           else Details(da.items + FetchDetails(src, b, bound).items, FetchDetails(src, b, bound).failure)
    decreases |a|
  {
    if |a| == 0 {
      assert a + b == b;
    } else {
      assert (a + b)[0] == a[0];
      assert (a + b)[1..] == a[1..] + b;
      FetchDetailsAppend(src, a[1..], b, bound);
    }
  }
}
