/**
 * `FeedViewModel`: the ordered list of feed videos and its pagination state.
 *
 * Each `async` operation is split at its one `await`: a Begin step runs the
 * guards, sets `isLoading` and returns the request it issues (or `None` when
 * a guard returns early), and a Complete step applies the service's outcome.
 * Because `isLoading` stays true between the two, at most one request is in
 * flight, and other operations (a toggle, the synchronous part of `refresh`)
 * may run in between, as they can on the main actor.
 *
 * The pure functions on `FeedState` specify the steps; the class methods are
 * proved to follow them.
 */
module Feed {
  import opened Options
  import opened Videos
  import opened ApiConfiguration
  import opened VideoServices
  import opened VideoCaching

  /** The view model's fields, as a value. */
  datatype FeedState = FeedState(
    videos: seq<Video>,
    isLoading: bool,
    error: Option<FetchError>,
    currentPage: int,
    hasMorePages: bool)

  /** A new view model: no videos, page 1, more pages expected. */
  const InitialState := FeedState([], false, None, 1, true)

  // ---------------------------------------------------------------------
  // Steps of the state machine

  /** The request a fetch of `page` issues. */
  function PageRequest(page: int): APIEndpoint {
    SearchVideos(DefaultQuery, page, PerPage)
  }

  /** `fetchVideos` up to its `await`. */
  function StartFetch(s: FeedState): FeedState {
    if s.isLoading then s else s.(isLoading := true, error := None, currentPage := 1)
  }

  /** `fetchVideos` after its `await`. */
  function FinishFetch(s: FeedState, result: FetchResult): FeedState {
    match result
    case Fetched(page) => s.(videos := page, hasMorePages := page != [], isLoading := false)
    case Failed(e) => s.(error := Some(e), isLoading := false)
  }

  /** The guard of `loadNextPage`. */
  predicate CanLoadNextPage(s: FeedState) {
    !s.isLoading && s.hasMorePages
  }

  /** `loadNextPage` up to its `await`: the page number is bumped before the request. */
  function StartNextPage(s: FeedState): FeedState {
    if !CanLoadNextPage(s) then s else s.(currentPage := s.currentPage + 1, isLoading := true)
  }

  /** `loadNextPage` after its `await`: a failure undoes the page bump. */
  function FinishNextPage(s: FeedState, result: FetchResult): FeedState {
    match result
    case Fetched(page) =>
      if page == [] then s.(hasMorePages := false, isLoading := false)
      else s.(videos := s.videos + page, isLoading := false)
    case Failed(e) => s.(error := Some(e), currentPage := s.currentPage - 1, isLoading := false)
  }

  /** The guard of `loadMoreVideosIfNeeded`: the video is within the last three of the list. */
  predicate ShouldLoadMore(s: FeedState, currentVideo: Video) {
    match FirstIndexOf(s.videos, currentVideo.id)
    case None => false
    case Some(index) => index >= |s.videos| - 3 && s.hasMorePages && !s.isLoading
  }

  /** `loadMoreVideosIfNeeded` up to the `await` inside `loadNextPage`. */
  function StartLoadMore(s: FeedState, currentVideo: Video): FeedState {
    if ShouldLoadMore(s, currentVideo) then StartNextPage(s) else s
  }

  /** `refresh` up to the `await` inside `fetchVideos`. */
  function StartRefresh(s: FeedState): FeedState {
    StartFetch(s.(videos := [], currentPage := 1, hasMorePages := true))
  }

  // ---------------------------------------------------------------------
  // In-place edits of one video

  function WithLikeToggled(v: Video): (r: Video)
    ensures SameContent(r, v) && r.isLiked == !v.isLiked
    ensures r.likeCount == v.likeCount + (if r.isLiked then 1 else -1)
    ensures r.isBookmarked == v.isBookmarked && r.bookmarkCount == v.bookmarkCount
    ensures r.commentCount == v.commentCount && r.shareCount == v.shareCount
  {
    var liked := !v.isLiked;
    v.(isLiked := liked, likeCount := v.likeCount + if liked then 1 else -1)
  }

  function WithBookmarkToggled(v: Video): (r: Video)
    ensures SameContent(r, v) && r.isBookmarked == !v.isBookmarked
    ensures r.bookmarkCount == v.bookmarkCount + (if r.isBookmarked then 1 else -1)
    ensures r.isLiked == v.isLiked && r.likeCount == v.likeCount
    ensures r.commentCount == v.commentCount && r.shareCount == v.shareCount
  {
    var bookmarked := !v.isBookmarked;
    v.(isBookmarked := bookmarked, bookmarkCount := v.bookmarkCount + if bookmarked then 1 else -1)
  }

  /**
   * `toggleLike(for:)` on the list: the first video with the id has its like
   * flag flipped and its like count moved by one in the flag's direction;
   * every other video, and every other field, is unchanged. An unknown id
   * changes nothing.
   */
  function ToggleLikeIn(vs: seq<Video>, id: int): (r: seq<Video>)
    ensures |r| == |vs| && Ids(r) == Ids(vs)
    ensures FirstIndexOf(vs, id).None? ==> r == vs
    ensures FirstIndexOf(vs, id).Some? ==>
      var i := FirstIndexOf(vs, id).value;
      && r[i].isLiked == !vs[i].isLiked
      && r[i].likeCount == vs[i].likeCount + (if r[i].isLiked then 1 else -1)
      && SameContent(r[i], vs[i])
      && r[i].isBookmarked == vs[i].isBookmarked && r[i].bookmarkCount == vs[i].bookmarkCount
      && r[i].commentCount == vs[i].commentCount && r[i].shareCount == vs[i].shareCount
    ensures forall j :: 0 <= j < |vs| && FirstIndexOf(vs, id) != Some(j) ==> r[j] == vs[j]
  {
    match FirstIndexOf(vs, id)
    case None => vs
    case Some(i) => vs[i := WithLikeToggled(vs[i])]
  }

  /**
   * `toggleBookmark(for:)` on the list: the first video with the id has its
   * bookmark flag flipped and its bookmark count moved by one in the flag's
   * direction; every other video, and every other field, is unchanged. An
   * unknown id changes nothing.
   */
  function ToggleBookmarkIn(vs: seq<Video>, id: int): (r: seq<Video>)
    ensures |r| == |vs| && Ids(r) == Ids(vs)
    ensures FirstIndexOf(vs, id).None? ==> r == vs
    ensures FirstIndexOf(vs, id).Some? ==>
      var i := FirstIndexOf(vs, id).value;
      && r[i].isBookmarked == !vs[i].isBookmarked
      && r[i].bookmarkCount == vs[i].bookmarkCount + (if r[i].isBookmarked then 1 else -1)
      && SameContent(r[i], vs[i])
      && r[i].isLiked == vs[i].isLiked && r[i].likeCount == vs[i].likeCount
      && r[i].commentCount == vs[i].commentCount && r[i].shareCount == vs[i].shareCount
    ensures forall j :: 0 <= j < |vs| && FirstIndexOf(vs, id) != Some(j) ==> r[j] == vs[j]
  {
    match FirstIndexOf(vs, id)
    case None => vs
    case Some(i) => vs[i := WithBookmarkToggled(vs[i])]
  }

  /** `updateVideo(at:with:)` on the list: an index out of range changes nothing. */
  function UpdateAt(vs: seq<Video>, index: int, video: Video): (r: seq<Video>)
    ensures |r| == |vs|
    ensures 0 <= index < |vs| ==> r[index] == video
    ensures forall j :: 0 <= j < |vs| && j != index ==> r[j] == vs[j]
  {
    if 0 <= index < |vs| then vs[index := video] else vs
  }

  // ---------------------------------------------------------------------
  // Properties of the state machine

  /** Both fetches are no-ops while a fetch is in flight; `loadNextPage` also once the pages are exhausted. */
  lemma GuardsAreNoOps(s: FeedState, v: Video)
    ensures s.isLoading ==> StartFetch(s) == s && StartNextPage(s) == s && StartLoadMore(s, v) == s
    ensures !s.hasMorePages ==> StartNextPage(s) == s && StartLoadMore(s, v) == s
  {
  }

  /** `fetchVideos` start to finish: page 1, the page replaces the list on success, stale-over-blank on failure. */
  lemma FetchVideosOutcome(s: FeedState, result: FetchResult)
    requires !s.isLoading
    ensures var t := FinishFetch(StartFetch(s), result);
      && t.currentPage == 1
      && !t.isLoading
      && (result.Fetched? ==> t.videos == result.videos && t.hasMorePages == (result.videos != []) && t.error == None)
      && (result.Failed? ==> t.videos == s.videos && t.hasMorePages == s.hasMorePages && t.error == Some(result.error))
  {
  }

  /** `loadNextPage` start to finish. */
  lemma LoadNextPageOutcome(s: FeedState, result: FetchResult)
    requires CanLoadNextPage(s)
    ensures var t := FinishNextPage(StartNextPage(s), result);
      && !t.isLoading
      && (result.Failed? ==>
            t.currentPage == s.currentPage && t.videos == s.videos && t.hasMorePages == s.hasMorePages
            && t.error == Some(result.error))
      && (result.Fetched? && result.videos == [] ==>
            t.videos == s.videos && !t.hasMorePages && t.currentPage == s.currentPage + 1)
      && (result.Fetched? && result.videos != [] ==>
            t.videos == s.videos + result.videos && t.hasMorePages && t.currentPage == s.currentPage + 1)
  {
  }

  /** After a failed `loadNextPage`, the retry asks for the same page again. */
  lemma RetryRequestsSamePage(s: FeedState, e: FetchError)
    requires CanLoadNextPage(s)
    ensures var t := FinishNextPage(StartNextPage(s), Failed(e));
      CanLoadNextPage(t) && StartNextPage(t).currentPage == StartNextPage(s).currentPage
  {
  }

  /** `loadMoreVideosIfNeeded` triggers exactly when the video is present, within the last three, and the guards allow. */
  lemma LoadMoreTrigger(s: FeedState, v: Video)
    ensures ShouldLoadMore(s, v) <==>
      (exists i :: 0 <= i < |s.videos| && s.videos[i].id == v.id && i >= |s.videos| - 3
                   && (forall j :: 0 <= j < i ==> s.videos[j].id != v.id))
      && s.hasMorePages && !s.isLoading
  {
    match FirstIndexOf(s.videos, v.id)
    case None =>
    case Some(i) =>
      forall k | 0 <= k < |s.videos| && s.videos[k].id == v.id && (forall j :: 0 <= j < k ==> s.videos[j].id != v.id)
        ensures k == i
      {
      }
  }

  /** With ten videos, the one at index 7 triggers loading more and the one at index 6 does not. */
  lemma LoadMoreThresholdWithTen(s: FeedState)
    requires |s.videos| == 10 && s.hasMorePages && !s.isLoading
    requires forall i, j :: 0 <= i < j < 10 ==> s.videos[i].id != s.videos[j].id
    ensures ShouldLoadMore(s, s.videos[7])
    ensures !ShouldLoadMore(s, s.videos[6])
  {
    assert FirstIndexOf(s.videos, s.videos[7].id) == Some(7);
    assert FirstIndexOf(s.videos, s.videos[6].id) == Some(6);
  }

  /** `refresh` start to finish: the list is cleared first, so a failed fetch leaves it empty. */
  lemma RefreshOutcome(s: FeedState, result: FetchResult)
    requires !s.isLoading
    ensures var t := FinishFetch(StartRefresh(s), result);
      && t.currentPage == 1 && !t.isLoading
      && (result.Fetched? ==> t.videos == result.videos && t.hasMorePages == (result.videos != []))
      && (result.Failed? ==> t.videos == [] && t.hasMorePages)
  {
  }

  /**
   * `refresh` while a page is loading: the list is cleared and the page reset,
   * but the fetch is skipped by the guard, and the pending page then lands on
   * the cleared list; had it failed, the undo would leave page 0.
   */
  lemma RefreshDuringNextPage(s: FeedState, result: FetchResult)
    requires CanLoadNextPage(s)
    ensures var r := StartRefresh(StartNextPage(s));
      && r.isLoading && r.videos == [] && r.currentPage == 1
      && (result.Fetched? && result.videos != [] ==> FinishNextPage(r, result).videos == result.videos)
      && (result.Failed? ==> FinishNextPage(r, result).currentPage == 0)
  {
  }

  /** Toggling the like of a video twice restores the list, flag and counter alike. */
  lemma {:induction false} ToggleLikeTwice(vs: seq<Video>, id: int)
    ensures ToggleLikeIn(ToggleLikeIn(vs, id), id) == vs
  {
    match FirstIndexOf(vs, id)
    case None =>
    case Some(i) =>
      var once := ToggleLikeIn(vs, id);
      assert once[i].id == id;
      assert FirstIndexOf(once, id) == Some(i);
  }

  lemma {:induction false} ToggleBookmarkTwice(vs: seq<Video>, id: int)
    ensures ToggleBookmarkIn(ToggleBookmarkIn(vs, id), id) == vs
  {
    match FirstIndexOf(vs, id)
    case None =>
    case Some(i) =>
      var once := ToggleBookmarkIn(vs, id);
      assert once[i].id == id;
      assert FirstIndexOf(once, id) == Some(i);
  }

  /**
   * Stated on the flags alone: a like toggle changes the like state of
   * exactly one video when the id is present (the first with that id, so a
   * later duplicate keeps its state), of none otherwise, and never touches a
   * video with another id or any bookmark.
   */
  lemma ToggleLikeOnlyFirst(vs: seq<Video>, id: int)
    ensures forall j :: 0 <= j < |vs| ==>
      (ToggleLikeIn(vs, id)[j].isLiked != vs[j].isLiked <==>
         vs[j].id == id && forall k :: 0 <= k < j ==> vs[k].id != id)
    ensures forall j :: 0 <= j < |vs| && vs[j].id != id ==> ToggleLikeIn(vs, id)[j] == vs[j]
    ensures forall j :: 0 <= j < |vs| ==> ToggleLikeIn(vs, id)[j].isBookmarked == vs[j].isBookmarked
  {
    forall j | 0 <= j < |vs|
      ensures ToggleLikeIn(vs, id)[j].isLiked != vs[j].isLiked <==>
        vs[j].id == id && forall k :: 0 <= k < j ==> vs[k].id != id
    {
      FirstIndexIsFirstMatch(vs, id, j);
    }
  }

  /** The bookmark counterpart of `ToggleLikeOnlyFirst`. */
  lemma ToggleBookmarkOnlyFirst(vs: seq<Video>, id: int)
    ensures forall j :: 0 <= j < |vs| ==>
      (ToggleBookmarkIn(vs, id)[j].isBookmarked != vs[j].isBookmarked <==>
         vs[j].id == id && forall k :: 0 <= k < j ==> vs[k].id != id)
    ensures forall j :: 0 <= j < |vs| && vs[j].id != id ==> ToggleBookmarkIn(vs, id)[j] == vs[j]
    ensures forall j :: 0 <= j < |vs| ==> ToggleBookmarkIn(vs, id)[j].isLiked == vs[j].isLiked
  {
    forall j | 0 <= j < |vs|
      ensures ToggleBookmarkIn(vs, id)[j].isBookmarked != vs[j].isBookmarked <==>
        vs[j].id == id && forall k :: 0 <= k < j ==> vs[k].id != id
    {
      FirstIndexIsFirstMatch(vs, id, j);
    }
  }

  /** `j` is the first index of `id` exactly when it holds `id` and no earlier index does. */
  lemma FirstIndexIsFirstMatch(vs: seq<Video>, id: int, j: nat)
    requires j < |vs|
    ensures FirstIndexOf(vs, id) == Some(j) <==> vs[j].id == id && forall k :: 0 <= k < j ==> vs[k].id != id
  {
  }

  // ---------------------------------------------------------------------
  // The view model

  class FeedViewModel {
    var videos: seq<Video>
    var isLoading: bool
    var error: Option<FetchError>
    var currentIndex: int
    var currentPage: int
    var hasMorePages: bool
    const videoCache: VideoCache

    function State(): FeedState
      reads this
    {
      FeedState(videos, isLoading, error, currentPage, hasMorePages)
    }

    constructor (videoCache: VideoCache)
      ensures State() == InitialState && currentIndex == 0 && this.videoCache == videoCache
    {
      videos := [];
      isLoading := false;
      error := None;
      currentIndex := 0;
      currentPage := 1;
      hasMorePages := true;
      this.videoCache := videoCache;
    }

    /** `fetchVideos` up to its `await`; returns the request issued, `None` when already loading. */
    method BeginFetchVideos() returns (request: Option<APIEndpoint>)
      modifies this
      ensures currentIndex == old(currentIndex)
      ensures State() == StartFetch(old(State()))
      ensures request == if old(isLoading) then None else Some(PageRequest(1))
    {
      if isLoading {
        return None;
      }
      isLoading := true;
      error := None;
      currentPage := 1;
      request := Some(PageRequest(currentPage));
    }

    /** `fetchVideos` after its `await`: a fetched page also goes into the shared cache. */
    method CompleteFetchVideos(result: FetchResult)
      requires isLoading && videoCache.Valid()
      modifies this, videoCache
      ensures currentIndex == old(currentIndex)
      ensures State() == FinishFetch(old(State()), result)
      ensures videoCache.Valid()
      ensures videoCache.cachedVideos ==
        if result.Fetched? then InsertAll(old(videoCache.cachedVideos), result.videos) else old(videoCache.cachedVideos)
    {
      match result {
        case Fetched(fetchedVideos) =>
          videos := fetchedVideos;
          hasMorePages := fetchedVideos != [];
          videoCache.CacheVideos(fetchedVideos);
        case Failed(e) =>
          error := Some(e);
      }
      isLoading := false;
    }

    /** `loadMoreVideosIfNeeded` up to the `await` inside `loadNextPage`. */
    method BeginLoadMoreVideosIfNeeded(currentVideo: Video) returns (request: Option<APIEndpoint>)
      modifies this
      ensures currentIndex == old(currentIndex)
      ensures State() == StartLoadMore(old(State()), currentVideo)
      ensures request == if ShouldLoadMore(old(State()), currentVideo) then Some(PageRequest(old(currentPage) + 1)) else None
    {
      var index := FirstIndexOf(videos, currentVideo.id);
      if index.None? || index.value < |videos| - 3 || !hasMorePages || isLoading {
        return None;
      }
      request := BeginLoadNextPage();
    }

    /** `loadNextPage` up to its `await`. */
    method BeginLoadNextPage() returns (request: Option<APIEndpoint>)
      modifies this
      ensures currentIndex == old(currentIndex)
      ensures State() == StartNextPage(old(State()))
      ensures request == if CanLoadNextPage(old(State())) then Some(PageRequest(old(currentPage) + 1)) else None
    {
      if isLoading || !hasMorePages {
        return None;
      }
      currentPage := currentPage + 1;
      isLoading := true;
      request := Some(PageRequest(currentPage));
    }

    /** `loadNextPage` after its `await`. */
    method CompleteLoadNextPage(result: FetchResult)
      requires isLoading && videoCache.Valid()
      modifies this, videoCache
      ensures currentIndex == old(currentIndex)
      ensures State() == FinishNextPage(old(State()), result)
      ensures videoCache.Valid()
      ensures videoCache.cachedVideos ==
        if result.Fetched? then InsertAll(old(videoCache.cachedVideos), result.videos) else old(videoCache.cachedVideos)
    {
      match result {
        case Fetched(newVideos) =>
          if newVideos == [] {
            hasMorePages := false;
          } else {
            videos := videos + newVideos;
            videoCache.CacheVideos(newVideos);
          }
        case Failed(e) =>
          error := Some(e);
          currentPage := currentPage - 1;
      }
      isLoading := false;
    }

    /** `refresh` up to the `await` inside `fetchVideos`. */
    method BeginRefresh() returns (request: Option<APIEndpoint>)
      modifies this
      ensures currentIndex == old(currentIndex)
      ensures State() == StartRefresh(old(State()))
      ensures request == if old(isLoading) then None else Some(PageRequest(1))
    {
      videos := [];
      currentPage := 1;
      hasMorePages := true;
      request := BeginFetchVideos();
    }

    /** `toggleLike(for:)`. */
    method ToggleLike(video: Video)
      modifies this
      ensures currentIndex == old(currentIndex)
      ensures videos == ToggleLikeIn(old(videos), video.id)
      ensures isLoading == old(isLoading) && error == old(error)
      ensures currentPage == old(currentPage) && hasMorePages == old(hasMorePages)
    {
      var index := FirstIndexOf(videos, video.id);
      if index.None? {
        return;
      }
      var i := index.value;
      var liked := !videos[i].isLiked;
      videos := videos[i := videos[i].(isLiked := liked)];
      videos := videos[i := videos[i].(likeCount := videos[i].likeCount + if videos[i].isLiked then 1 else -1)];
    }

    /** `toggleBookmark(for:)`. */
    method ToggleBookmark(video: Video)
      modifies this
      ensures currentIndex == old(currentIndex)
      ensures videos == ToggleBookmarkIn(old(videos), video.id)
      ensures isLoading == old(isLoading) && error == old(error)
      ensures currentPage == old(currentPage) && hasMorePages == old(hasMorePages)
    {
      var index := FirstIndexOf(videos, video.id);
      if index.None? {
        return;
      }
      var i := index.value;
      var bookmarked := !videos[i].isBookmarked;
      videos := videos[i := videos[i].(isBookmarked := bookmarked)];
      videos := videos[i := videos[i].(bookmarkCount := videos[i].bookmarkCount + if videos[i].isBookmarked then 1 else -1)];
    }

    /** `binding(for:)`: an index past the end falls back to the first video; the list must not be empty. */
    function Binding(index: int): (r: Video)
      reads this
      requires 0 <= index && videos != []
      ensures r in videos
      ensures index < |videos| ==> r == videos[index]
      ensures index >= |videos| ==> r == videos[0]
    {
      if index < |videos| then videos[index] else videos[0]
    }

    /**
     * `updateVideo(at:with:)`: replaces the video at an index in range and
     * stores it in the shared cache (`VideoCache.shared`, passed in as
     * `shared`, which need not be this view model's cache).
     */
    method UpdateVideo(index: int, video: Video, shared: VideoCache)
      requires shared.Valid()
      modifies this, shared
      ensures currentIndex == old(currentIndex)
      ensures videos == UpdateAt(old(videos), index, video)
      ensures shared.Valid()
      ensures shared.cachedVideos == if 0 <= index < old(|videos|) then old(shared.cachedVideos)[video.id := video]
                                     else old(shared.cachedVideos)
      ensures isLoading == old(isLoading) && error == old(error)
      ensures currentPage == old(currentPage) && hasMorePages == old(hasMorePages)
    {
      if !(0 <= index < |videos|) {
        return;
      }
      videos := videos[index := video];
      shared.CacheVideo(video);
    }
  }
}
