/**
 * `ProfileViewModel`: the profile grid's videos and the liked and saved tabs,
 * derived from the shared `VideoCache` and `LikesStore`.
 *
 * `fetchProfileVideos` is split at its `await` like the feed's fetches. Its
 * random page (`Int.random(in: 1...3)`) is a parameter of the Begin step and
 * its `shuffled()` result a parameter of the Complete step, constrained to be
 * a permutation of the fetched list.
 */
module Profile {
  import opened Options
  import opened Videos
  import opened ApiConfiguration
  import opened VideoServices
  import opened VideoCaching
  import opened Likes

  datatype ProfileTab = VideosTab | LockedTab | SavedTab | LikedTab

  /** The grid's cell model. */
  datatype ProfileVideo = ProfileVideo(id: int, thumbnailURL: Option<string>, viewCount: int, isPinned: bool)

  const ProfilePageSize: int := 30

  // ---------------------------------------------------------------------
  // Derived lists

  /** `syncState(for:)`: the flags are taken from the store, nothing else changes. */
  function SyncState(v: Video, liked: set<int>, bookmarked: set<int>): (r: Video)
    ensures SameContent(r, v)
    ensures r.isLiked == (v.id in liked) && r.isBookmarked == (v.id in bookmarked)
    ensures r.likeCount == v.likeCount && r.commentCount == v.commentCount
    ensures r.shareCount == v.shareCount && r.bookmarkCount == v.bookmarkCount
  {
    v.(isLiked := v.id in liked, isBookmarked := v.id in bookmarked)
  }

  /** `videos.map { syncState(for: $0) }`. */
  function SyncAll(vs: seq<Video>, liked: set<int>, bookmarked: set<int>): (r: seq<Video>)
    ensures |r| == |vs| && Ids(r) == Ids(vs)
    ensures forall i :: 0 <= i < |vs| ==> r[i] == SyncState(vs[i], liked, bookmarked)
  {
    if vs == [] then [] else [SyncState(vs[0], liked, bookmarked)] + SyncAll(vs[1..], liked, bookmarked)
  }

  /** The map of `likedVideos`: marked liked, bookmark flag from the store. */
  function MarkLiked(vs: seq<Video>, bookmarked: set<int>): (r: seq<Video>)
    ensures |r| == |vs|
    ensures forall i :: 0 <= i < |vs| ==>
      SameContent(r[i], vs[i]) && SameCounters(r[i], vs[i])
      && r[i].isLiked && r[i].isBookmarked == (vs[i].id in bookmarked)
  {
    if vs == [] then [] else [vs[0].(isLiked := true, isBookmarked := vs[0].id in bookmarked)] + MarkLiked(vs[1..], bookmarked)
  }

  /** The map of `savedVideos`: marked bookmarked, like flag from the store. */
  function MarkSaved(vs: seq<Video>, liked: set<int>): (r: seq<Video>)
    ensures |r| == |vs|
    ensures forall i :: 0 <= i < |vs| ==>
      SameContent(r[i], vs[i]) && SameCounters(r[i], vs[i])
      && r[i].isBookmarked && r[i].isLiked == (vs[i].id in liked)
  {
    if vs == [] then [] else [vs[0].(isLiked := vs[0].id in liked, isBookmarked := true)] + MarkSaved(vs[1..], liked)
  }

  /** `asProfileVideo`. */
  function AsProfileVideo(v: Video): (r: ProfileVideo)
    ensures r.id == v.id && r.thumbnailURL == v.thumbnailURL && !r.isPinned
    ensures r.viewCount == v.likeCount + v.commentCount + v.shareCount
  {
    ProfileVideo(v.id, v.thumbnailURL, v.likeCount + v.commentCount + v.shareCount, false)
  }

  class ProfileViewModel {
    var profileVideoCount: int
    var videos: seq<Video>
    var isLoading: bool
    var error: Option<FetchError>
    var allFetchedVideos: seq<Video>
    const likesStore: LikesStore
    const videoCache: VideoCache

    constructor (likesStore: LikesStore, videoCache: VideoCache)
      ensures this.likesStore == likesStore && this.videoCache == videoCache
      ensures profileVideoCount == 0 && videos == [] && allFetchedVideos == []
      ensures !isLoading && error == None
    {
      profileVideoCount := 0;
      videos := [];
      isLoading := false;
      error := None;
      allFetchedVideos := [];
      this.likesStore := likesStore;
      this.videoCache := videoCache;
    }

    /** `totalLikes`: the number of liked ids; zero exactly when nothing is liked. */
    function TotalLikes(): (r: nat)
      reads this, likesStore
      ensures r == 0 <==> likesStore.likedIds == {}
      ensures forall id :: likesStore.IsLiked(id) ==> r >= 1
    {
      |likesStore.likedIds|
    }

    /**
     * What the liked tab shows: cached videos whose ids are liked, each as
     * cached except for the flags, marked liked and bookmarked as the store
     * says; every liked and cached id appears, and none twice.
     */
    ghost predicate IsLikedList(r: seq<Video>)
      reads this, likesStore, videoCache
    {
      && (forall i :: 0 <= i < |r| ==>
            && r[i].isLiked && r[i].id in likesStore.likedIds
            && r[i].id in videoCache.cachedVideos
            && SameContent(r[i], videoCache.cachedVideos[r[i].id])
            && SameCounters(r[i], videoCache.cachedVideos[r[i].id])
            && r[i].isBookmarked == likesStore.IsBookmarked(r[i].id))
      && (forall id :: id in likesStore.likedIds && id in videoCache.cachedVideos ==>
            exists i :: 0 <= i < |r| && r[i].id == id)
      && (forall i, j :: 0 <= i < j < |r| ==> r[i].id != r[j].id)
    }

    /** What the saved tab shows: the bookmark counterpart of `IsLikedList`. */
    ghost predicate IsSavedList(r: seq<Video>)
      reads this, likesStore, videoCache
    {
      && (forall i :: 0 <= i < |r| ==>
            && r[i].isBookmarked && r[i].id in likesStore.bookmarkedIds
            && r[i].id in videoCache.cachedVideos
            && SameContent(r[i], videoCache.cachedVideos[r[i].id])
            && SameCounters(r[i], videoCache.cachedVideos[r[i].id])
            && r[i].isLiked == likesStore.IsLiked(r[i].id))
      && (forall id :: id in likesStore.bookmarkedIds && id in videoCache.cachedVideos ==>
            exists i :: 0 <= i < |r| && r[i].id == id)
      && (forall i, j :: 0 <= i < j < |r| ==> r[i].id != r[j].id)
    }

    /** `likedVideos`: the cached videos whose ids are liked, marked liked, each once. */
    method LikedVideos() returns (r: seq<Video>)
      requires videoCache.Valid()
      ensures IsLikedList(r)
    {
      var cached := videoCache.VideosFor(likesStore.likedIds);
      r := MarkLiked(cached, likesStore.bookmarkedIds);
      forall id | id in likesStore.likedIds && id in videoCache.cachedVideos
        ensures exists i :: 0 <= i < |r| && r[i].id == id
      {
        var i :| 0 <= i < |cached| && cached[i] == videoCache.cachedVideos[id];
        assert r[i].id == id;
      }
    }

    /** `savedVideos`: the cached videos whose ids are bookmarked, marked bookmarked, each once. */
    method SavedVideos() returns (r: seq<Video>)
      requires videoCache.Valid()
      ensures IsSavedList(r)
    {
      var cached := videoCache.VideosFor(likesStore.bookmarkedIds);
      r := MarkSaved(cached, likesStore.likedIds);
      forall id | id in likesStore.bookmarkedIds && id in videoCache.cachedVideos
        ensures exists i :: 0 <= i < |r| && r[i].id == id
      {
        var i :| 0 <= i < |cached| && cached[i] == videoCache.cachedVideos[id];
        assert r[i].id == id;
      }
    }

    /** `videos(for:)`. */
    method VideosFor(tab: ProfileTab) returns (r: seq<Video>)
      requires videoCache.Valid()
      ensures tab == LockedTab ==> r == []
      ensures tab == VideosTab ==> r == SyncAll(videos, likesStore.likedIds, likesStore.bookmarkedIds)
      ensures tab == LikedTab ==> IsLikedList(r)
      ensures tab == SavedTab ==> IsSavedList(r)
    {
      match tab
      case VideosTab => r := SyncAll(videos, likesStore.likedIds, likesStore.bookmarkedIds);
      case LikedTab => r := LikedVideos();
      case SavedTab => r := SavedVideos();
      case LockedTab => r := [];
    }

    /** `video(at:)`. */
    function VideoAt(index: int): (r: Option<Video>)
      reads this
      ensures r.Some? <==> 0 <= index < |videos|
      ensures r.Some? ==> r.value == videos[index]
    {
      if 0 <= index < |videos| then Some(videos[index]) else None
    }

    /** `fetchProfileVideos` up to its `await`; returns the request issued, `None` when already loading. */
    method BeginFetchProfileVideos(randomPage: int) returns (request: Option<APIEndpoint>)
      requires 1 <= randomPage <= 3
      modifies this
      ensures old(isLoading) ==> request == None && isLoading && error == old(error)
      ensures !old(isLoading) ==> request == Some(SearchVideos(DefaultQuery, randomPage, ProfilePageSize))
                                  && isLoading && error == None
      ensures videos == old(videos) && allFetchedVideos == old(allFetchedVideos)
      ensures profileVideoCount == old(profileVideoCount)
    {
      if isLoading {
        return None;
      }
      isLoading := true;
      error := None;
      request := Some(SearchVideos(DefaultQuery, randomPage, ProfilePageSize));
    }

    /**
     * `fetchProfileVideos` after its `await`: on success the grid shows the
     * shuffled list, the whole list is kept and cached, and the profile's
     * video count follows; on failure only the error is set.
     */
    method CompleteFetchProfileVideos(result: FetchResult, shuffled: seq<Video>)
      requires isLoading && videoCache.Valid()
      requires result.Fetched? ==> multiset(shuffled) == multiset(result.videos)
      modifies this, videoCache
      ensures !isLoading && videoCache.Valid()
      ensures result.Fetched? ==>
        && videos == shuffled && allFetchedVideos == result.videos
        && videoCache.cachedVideos == InsertAll(old(videoCache.cachedVideos), result.videos)
        && profileVideoCount == |videos| == |result.videos| && error == old(error)
      ensures result.Failed? ==>
        && videos == old(videos) && allFetchedVideos == old(allFetchedVideos)
        && videoCache.cachedVideos == old(videoCache.cachedVideos)
        && profileVideoCount == old(profileVideoCount) && error == Some(result.error)
    {
      match result {
        case Fetched(fetchedVideos) =>
          videos := shuffled;
          allFetchedVideos := fetchedVideos;
          videoCache.CacheVideos(fetchedVideos);
          UpdateProfileCounts();
          ShuffledKeepsCount(fetchedVideos, shuffled);
        case Failed(e) =>
          error := Some(e);
      }
      isLoading := false;
    }

    /** `refresh` up to the `await` inside `fetchProfileVideos`: both lists are cleared first. */
    method BeginRefresh(randomPage: int) returns (request: Option<APIEndpoint>)
      requires 1 <= randomPage <= 3
      modifies this
      ensures videos == [] && allFetchedVideos == [] && isLoading
      ensures request == if old(isLoading) then None else Some(SearchVideos(DefaultQuery, randomPage, ProfilePageSize))
      ensures error == if old(isLoading) then old(error) else None
      ensures profileVideoCount == old(profileVideoCount)
    {
      videos := [];
      allFetchedVideos := [];
      request := BeginFetchProfileVideos(randomPage);
    }

    /** `updateProfileCounts`. */
    method UpdateProfileCounts()
      modifies this
      ensures profileVideoCount == |videos|
      ensures videos == old(videos) && allFetchedVideos == old(allFetchedVideos)
      ensures isLoading == old(isLoading) && error == old(error)
    {
      profileVideoCount := |videos|;
    }
  }

  /** The shuffled grid holds the same videos as the fetched list, so as many. */
  lemma ShuffledKeepsCount(fetched: seq<Video>, shuffled: seq<Video>)
    requires multiset(shuffled) == multiset(fetched)
    ensures |shuffled| == |fetched|
    ensures forall v :: v in shuffled <==> v in fetched
  {
    assert |multiset(shuffled)| == |multiset(fetched)|;
    forall v ensures v in shuffled <==> v in fetched {
      assert v in shuffled <==> v in multiset(shuffled);
      assert v in fetched <==> v in multiset(fetched);
    }
  }

  /**
   * Toggling a like through the shared store moves the profile's
   * `totalLikes` by one: up for a new like, down for an unlike.
   */
  method ToggleLikeMovesTotalLikes(vm: ProfileViewModel, videoId: int) returns (nowLiked: bool)
    requires vm.likesStore.Valid()
    modifies vm.likesStore, vm.likesStore.defaults
    ensures vm.likesStore.Valid()
    ensures vm.TotalLikes() == old(vm.TotalLikes()) + (if nowLiked then 1 else -1)
    ensures nowLiked <==> !old(vm.likesStore.IsLiked(videoId))
  {
    ghost var before := vm.likesStore.likedIds;
    nowLiked := vm.likesStore.ToggleLike(videoId);
    ToggledSize(before, videoId);
  }
}
