# TikTok-Style-App: the feed, profile and player bookkeeping in Dafny

This project models the state-keeping core of a vertical video feed app for iOS. The app loads pages of videos from the Pexels catalog into a paginated feed. It lets the user like and bookmark videos, and it keeps those choices in `UserDefaults`. A shared cache lets the profile screen list liked and saved videos. A small pool of video players, at most three, serves the videos around the one on screen.

One Dafny module stands for each core Swift file:

| file | module | what it holds |
|---|---|---|
| `options.dfy` | `Options` | `Option` |
| `sets.dfy` | `Sets` | a witness for a non-empty set (used to pick an element in loops) |
| `video.dfy` | `Videos` | `Video`, `VideoUser`, the memberwise initializer, first-index search |
| `api_configuration.dfy` | `ApiConfiguration` | the catalog constants and `APIEndpoint.url` / `.parameters` |
| `video_service.dfy` | `VideoServices` | the outcome of a catalog fetch: a page of videos or an error |
| `pexels_models.dfy` | `PexelsModels` | the decoded catalog records, `bestVideoFile`, `toDomainModel(s)` |
| `video_cache.dfy` | `VideoCaching` | class `VideoCache` over a `map<int, Video>` |
| `likes_store.dfy` | `Likes` | class `UserDefaults` and class `LikesStore` (two `set<int>` fields persisted under two keys) |
| `feed_view_model.dfy` | `Feed` | the pagination state machine as functions on `FeedState`, and class `FeedViewModel` proved to follow it |
| `profile_view_model.dfy` | `Profile` | class `ProfileViewModel`: tab lists, fetch and refresh |
| `video_player_manager.dfy` | `Player` | the player pool as functions on `Pool` with its invariants, and class `VideoPlayerManager` proved to follow them |

Each `async` method is split at its single `await`:

- A *Begin* method runs the guards and sets `isLoading`. It returns the request it issues, or `None` when a guard returns early.
- A *Complete* method takes the service's outcome (`Fetched(videos)` or `Failed(error)`) and applies it.

Randomness becomes a parameter constrained the way the code draws it:

- the four counts and the caption of `toDomainModel` (a `RandomDraw`);
- the profile's random page;
- the profile's `shuffled()` result, which must be a permutation of the fetched list.

The players are values. An `AVPlayer` record holds its item, whether it is playing, its position, and a serial number that stands for its object identity. Each method of `VideoPlayerManager` is proved to turn `State()` into the matching function of the old state (`AfterPlay`, `AfterAcquire`, ...). Lemmas prove that those functions keep `Bounded`: the three maps share one key set, each entry is wired to its own item and observer, and serials are distinct. Only the current id may play, and at most three players are resident.

Behaviours of the code worth knowing:

- `play(videoId:)` sets `currentlyPlayingId` even when no player is resident for the id.
- The load-more trigger is `index >= videos.count - 3`. With ten videos, index 7 triggers and index 6 does not.
- There is no request generation counter:
  - `refresh` while a page is loading clears the list, but its fetch is skipped by the `isLoading` guard.
  - The pending page is then applied to the cleared list, and a failure then leaves `currentPage` at 0 (`Feed.RefreshDuringNextPage`).
- A preload's completion simply calls `player(for:url:)`. It does not check whether the id is still wanted.
- Eviction keeps the window around the id just requested, not around the playing id.

## Model

| member | source | states |
|---|---|---|
| Videos.NewVideo | TikTok-Style-App/Features/Feed/Models/Video.swift:10-23 | the memberwise initializer: `isLiked` and `isBookmarked` start false, every other field is the argument given |
| Videos.FirstIndexOf | TikTok-Style-App/Features/Feed/ViewModels/FeedViewModel.swift:127 | `firstIndex(where: id matches)`: the index found holds the id and no earlier one does; `None` exactly when no video has the id |
| ApiConfiguration.Url | TikTok-Style-App/Core/Network/APIConfiguration.swift:21-26 | the request URL is `https://api.pexels.com/videos/search` whatever the case's arguments |
| ApiConfiguration.Parameters | TikTok-Style-App/Core/Network/APIConfiguration.swift:28-37 | exactly the keys `query`, `page`, `per_page`, carrying the case's query, page and perPage |
| ApiConfiguration.ParametersDetermineEndpoint | TikTok-Style-App/Core/Network/APIConfiguration.swift:28-37 | two endpoints with equal parameter dictionaries are equal: nothing of the case is lost |
| PexelsModels.Lowercased | TikTok-Style-App/Core/Models/PexelsModels.swift:93 | same length, each ASCII capital replaced by its small letter, all else kept |
| PexelsModels.ReplacingSpaces | TikTok-Style-App/Core/Models/PexelsModels.swift:93 | same length, each space replaced by `_`, all else kept |
| PexelsModels.Username | TikTok-Style-App/Core/Models/PexelsModels.swift:93 | the username has the name's length, no space and no capital, and is the name lower-cased with spaces as `_` |
| PexelsModels.UsernameOfTestUser | TikTok-Style-AppTests/TikTok_Style_AppTests.swift:101 | "Test User" becomes "test_user" |
| PexelsModels.ParseURL | TikTok-Style-App/Core/Models/PexelsModels.swift:96-97 | `URL(string:)` as modelled: `nil` exactly for the empty string, otherwise the string itself |
| PexelsModels.IndexOfQuality | TikTok-Style-App/Core/Models/PexelsModels.swift:113 | the first file whose lower-cased quality equals the given one; `None` when no file matches |
| PexelsModels.IndexOfPreferred | TikTok-Style-App/Core/Models/PexelsModels.swift:112-116 | a found index is valid and its file has one of the qualities; none found means no file has any of them |
| PexelsModels.BestFileIndex | TikTok-Style-App/Core/Models/PexelsModels.swift:108-119 | the chosen index is in range, and there is none exactly when the list is empty |
| PexelsModels.BestVideoFile | TikTok-Style-App/Core/Models/PexelsModels.swift:108-119 | `bestVideoFile` is nil if and only if there are no files, and is otherwise one of them |
| PexelsModels.BestFileIndexIsBest | TikTok-Style-App/Core/Models/PexelsModels.swift:110-118 | against an independent ranking (hd < sd < hls < anything else) the chosen file has the least rank, and is the first file of that rank |
| PexelsModels.NilQualityOnlyAsFallback | TikTok-Style-App/Core/Models/PexelsModels.swift:113-118 | a file without a quality is chosen only as the first file, when no file has a preferred quality |
| PexelsModels.ToDomainModel | TikTok-Style-App/Core/Models/PexelsModels.swift:84-105 | copies id, user id and name; derives the username; no avatar; plays the best file's link; thumbnail from `image`; counts within 1000..100000, 100..5000, 50..2000, 100..10000; a caption from the fixed list; music title "Original Sound - " + name; not liked, not bookmarked |
| PexelsModels.ToDomainModels | TikTok-Style-App/Core/Models/PexelsModels.swift:139-141 | same length and order: element i is the conversion of video i |
| PexelsModels.ConvertingExampleVideo | TikTok-Style-AppTests/TikTok_Style_AppTests.swift:79-103 | the fixture converts: id 999, name "Test User", username "test_user", the hd file's link, a thumbnail |
| VideoCaching.InsertAllKeys | TikTok-Style-App/Core/Local/VideoCache.swift:29-33 | after `cache(videos:)` the keys are the old keys plus the ids inserted |
| VideoCaching.InsertAllKeyedById | TikTok-Style-App/Core/Local/VideoCache.swift:24-33 | insertion keeps every key mapped to a video with that id |
| VideoCaching.InsertAllLastWins | TikTok-Style-App/Core/Local/VideoCache.swift:29-33 | for duplicate ids the last occurrence is what the cache holds |
| VideoCaching.InsertAllUntouched | TikTok-Style-App/Core/Local/VideoCache.swift:29-33 | ids not inserted keep their old entry, or stay absent |
| VideoCaching.VideoCache.constructor | TikTok-Style-App/Core/Local/VideoCache.swift:19 | a new cache is empty |
| VideoCaching.VideoCache.CacheVideo | TikTok-Style-App/Core/Local/VideoCache.swift:24-26 | stores the video under its id, other keys unchanged; `video(for: id)` then returns it |
| VideoCaching.VideoCache.CacheVideos | TikTok-Style-App/Core/Local/VideoCache.swift:29-33 | the loop performs sequential insertion, keeping every key mapped to its own id |
| VideoCaching.VideoCache.VideoFor | TikTok-Style-App/Core/Local/VideoCache.swift:36-38 | a video exactly when the id is cached, and it carries that id |
| VideoCaching.VideoCache.AllVideos | TikTok-Style-App/Core/Local/VideoCache.swift:41-43 | one element per key, exactly the cached videos, no id twice |
| VideoCaching.VideoCache.VideosFor | TikTok-Style-App/Core/Local/VideoCache.swift:46-48 | exactly the cached videos whose ids are asked for, each once; uncached ids dropped |
| VideoCaching.VideoCache.Clear | TikTok-Style-App/Core/Local/VideoCache.swift:51-53 | the cache is empty |
| Likes.LoadIds | TikTok-Style-App/Core/Local/LikesStore.swift:44-50 | a key holding an integer array reads as the set of its elements; a missing key or another type reads as the empty set |
| Likes.Toggled | TikTok-Style-App/Core/Local/LikesStore.swift:68-78 | the membership of the id flips and every other id keeps its own |
| Likes.ArrayOf | TikTok-Style-App/Core/Local/LikesStore.swift:54-60 | `Array(set)`: exactly the set's members, each once |
| Likes.LikesStore.constructor | TikTok-Style-App/Core/Local/LikesStore.swift:37-40 | the sets are what the defaults store holds under the two keys |
| Likes.LikesStore.LoadFromStorage | TikTok-Style-App/Core/Local/LikesStore.swift:43-51 | each set is replaced by the stored array's elements only when its key holds an integer array |
| Likes.LikesStore.SaveLikes | TikTok-Style-App/Core/Local/LikesStore.swift:54-56 | the liked key then reads back as the liked set; every other key is unchanged |
| Likes.LikesStore.SaveBookmarks | TikTok-Style-App/Core/Local/LikesStore.swift:58-60 | the bookmarked key then reads back as the bookmarked set; every other key is unchanged |
| Likes.LikesStore.IsLiked | TikTok-Style-App/Core/Local/LikesStore.swift:63-65 | membership in the liked set |
| Likes.LikesStore.IsBookmarked | TikTok-Style-App/Core/Local/LikesStore.swift:94-96 | membership in the bookmarked set |
| Likes.LikesStore.LikedVideoIds | TikTok-Style-App/Core/Local/LikesStore.swift:89-91 | the ids for which `isLiked` holds |
| Likes.LikesStore.BookmarkedVideoIds | TikTok-Style-App/Core/Local/LikesStore.swift:120-122 | the ids for which `isBookmarked` holds |
| Likes.LikesStore.ToggleLike | TikTok-Style-App/Core/Local/LikesStore.swift:68-78 | flips exactly this id, returns the new membership, leaves bookmarks alone, and keeps the store in step with the defaults; the liked key then holds an array, and every other key of the defaults is kept as it was |
| Likes.LikesStore.SetLiked | TikTok-Style-App/Core/Local/LikesStore.swift:80-87 | `isLiked(id)` becomes the value given (so repeating it changes nothing); bookmarks untouched; persisted; the liked key then holds an array, and every other key of the defaults is kept as it was |
| Likes.LikesStore.ToggleBookmark | TikTok-Style-App/Core/Local/LikesStore.swift:99-109 | flips exactly this id, returns the new membership, leaves likes alone, persisted; the bookmarked key then holds an array, and every other key of the defaults is kept as it was |
| Likes.LikesStore.SetBookmarked | TikTok-Style-App/Core/Local/LikesStore.swift:111-118 | `isBookmarked(id)` becomes the value given; likes untouched; persisted; the bookmarked key then holds an array, and every other key of the defaults is kept as it was |
| Likes.LikesStore.ClearAll | TikTok-Style-App/Core/Local/LikesStore.swift:125-130 | both sets empty, both keys removed, nothing else in the defaults changes; the store stays in step, so a reload reads empty sets |
| Likes.Reload | TikTok-Style-App/Core/Local/LikesStore.swift:37-59 | a fresh store over the same defaults reads back both sets exactly |
| Likes.ToggledSize | TikTok-Style-App/Core/Local/LikesStore.swift:68-78 | a toggle changes the set's size by exactly one, down for a member, up otherwise |
| Likes.ToggleTwice | TikTok-Style-AppTests/TikTok_Style_AppTests.swift:168-208 | toggling the same id twice restores the set |
| Likes.ToggleDistinct | TikTok-Style-AppTests/TikTok_Style_AppTests.swift:210-224 | toggling n distinct new ids adds exactly those ids, so the size grows by n |
| Feed.WithLikeToggled | TikTok-Style-App/Features/Feed/ViewModels/FeedViewModel.swift:128-129 | the flag flips and the like count moves by one in the flag's direction; nothing else changes |
| Feed.WithBookmarkToggled | TikTok-Style-App/Features/Feed/ViewModels/FeedViewModel.swift:135-136 | the bookmark flag flips and its count moves by one in the flag's direction; nothing else changes |
| Feed.ToggleLikeIn | TikTok-Style-App/Features/Feed/ViewModels/FeedViewModel.swift:126-130 | an unknown id leaves the list as it is; otherwise only the first video with the id changes: its like flag flips, its like count moves by one in the flag's direction, everything else about it is kept; length and id order kept |
| Feed.ToggleBookmarkIn | TikTok-Style-App/Features/Feed/ViewModels/FeedViewModel.swift:133-137 | an unknown id leaves the list as it is; otherwise only the first video with the id changes: its bookmark flag flips, its bookmark count moves by one in the flag's direction, everything else about it is kept; length and id order kept |
| Feed.UpdateAt | TikTok-Style-App/Features/Feed/ViewModels/FeedViewModel.swift:147-148 | only the given index is replaced, and only when it is in range |
| Feed.GuardsAreNoOps | TikTok-Style-App/Features/Feed/ViewModels/FeedViewModel.swift:38-86 | while loading, both fetches and load-more change nothing; without more pages, neither does loading the next page |
| Feed.FetchVideosOutcome | TikTok-Style-App/Features/Feed/ViewModels/FeedViewModel.swift:38-65 | page 1; success replaces the list and sets `hasMorePages` to "page not empty"; failure sets the error and keeps the list; not loading afterwards |
| Feed.LoadNextPageOutcome | TikTok-Style-App/Features/Feed/ViewModels/FeedViewModel.swift:82-114 | failure restores the page number and keeps list and flags; an empty page ends pagination; a page is appended |
| Feed.RetryRequestsSamePage | TikTok-Style-App/Features/Feed/ViewModels/FeedViewModel.swift:88-109 | after a failed next page, the next attempt requests the same page number again |
| Feed.LoadMoreTrigger | TikTok-Style-App/Features/Feed/ViewModels/FeedViewModel.swift:70-75 | load-more fires if and only if the video is present, its first index is within the last three, more pages exist and nothing is loading |
| Feed.LoadMoreThresholdWithTen | TikTok-Style-App/Features/Feed/ViewModels/FeedViewModel.swift:71 | with ten distinct videos, index 7 triggers and index 6 does not |
| Feed.RefreshOutcome | TikTok-Style-App/Features/Feed/ViewModels/FeedViewModel.swift:117-123 | refresh ends on page 1; success shows the new page, failure leaves an empty list with more pages expected |
| Feed.RefreshDuringNextPage | TikTok-Style-App/Features/Feed/ViewModels/FeedViewModel.swift:82-123 | refresh during a page load clears the list but issues no fetch; the pending page then lands on the cleared list, and a failure leaves page 0 |
| Feed.ToggleLikeTwice | TikTok-Style-App/Features/Feed/ViewModels/FeedViewModel.swift:126-130 | toggling a like twice restores the list, flag and count |
| Feed.ToggleBookmarkTwice | TikTok-Style-App/Features/Feed/ViewModels/FeedViewModel.swift:133-137 | toggling a bookmark twice restores the list |
| Feed.ToggleBookmarkOnlyFirst | TikTok-Style-App/Features/Feed/ViewModels/FeedViewModel.swift:134-136 | a video's bookmark flag changes exactly when it is the first with the id; videos with other ids are untouched and no like changes |
| Feed.ToggleLikeOnlyFirst | TikTok-Style-App/Features/Feed/ViewModels/FeedViewModel.swift:127-129 | a video's like flag changes exactly when it is the first with the id; videos with other ids are untouched and no bookmark changes |
| Feed.FeedViewModel.constructor | TikTok-Style-App/Features/Feed/ViewModels/FeedViewModel.swift:15-33 | no videos, not loading, no error, page 1, more pages expected |
| Feed.FeedViewModel.BeginFetchVideos | TikTok-Style-App/Features/Feed/ViewModels/FeedViewModel.swift:38-54 | follows `StartFetch` and requests page 1 of "people", 80 per page, unless already loading; `currentIndex` kept |
| Feed.FeedViewModel.CompleteFetchVideos | TikTok-Style-App/Features/Feed/ViewModels/FeedViewModel.swift:55-64 | follows `FinishFetch`; a fetched page is also inserted into the cache; `currentIndex` kept |
| Feed.FeedViewModel.BeginLoadMoreVideosIfNeeded | TikTok-Style-App/Features/Feed/ViewModels/FeedViewModel.swift:68-79 | follows `StartLoadMore` and requests the next page exactly when the trigger holds; `currentIndex` kept |
| Feed.FeedViewModel.BeginLoadNextPage | TikTok-Style-App/Features/Feed/ViewModels/FeedViewModel.swift:82-97 | follows `StartNextPage` and requests the bumped page exactly when the guard passes; `currentIndex` kept |
| Feed.FeedViewModel.CompleteLoadNextPage | TikTok-Style-App/Features/Feed/ViewModels/FeedViewModel.swift:99-113 | follows `FinishNextPage`; a non-empty page is also inserted into the cache; `currentIndex` kept |
| Feed.FeedViewModel.BeginRefresh | TikTok-Style-App/Features/Feed/ViewModels/FeedViewModel.swift:117-123 | follows `StartRefresh`: cleared, page 1, more pages, then the fetch guard; `currentIndex` kept |
| Feed.FeedViewModel.ToggleLike | TikTok-Style-App/Features/Feed/ViewModels/FeedViewModel.swift:126-130 | the list becomes `ToggleLikeIn` of the old one; pagination state unchanged; `currentIndex` kept |
| Feed.FeedViewModel.ToggleBookmark | TikTok-Style-App/Features/Feed/ViewModels/FeedViewModel.swift:133-137 | the list becomes `ToggleBookmarkIn` of the old one; pagination state unchanged; `currentIndex` kept |
| Feed.FeedViewModel.Binding | TikTok-Style-App/Features/Feed/ViewModels/FeedViewModel.swift:140-143 | the video at the index, or the first video past the end |
| Feed.FeedViewModel.UpdateVideo | TikTok-Style-App/Features/Feed/ViewModels/FeedViewModel.swift:146-151 | in range: the index is replaced and the shared cache stores the video; out of range: nothing changes; `currentIndex` kept |
| Profile.SyncState | TikTok-Style-App/Features/Profile/ViewModels/ProfileViewModel.swift:143-148 | the flags become the store's memberships; content and counts are kept |
| Profile.SyncAll | TikTok-Style-App/Features/Profile/ViewModels/ProfileViewModel.swift:131-132 | same length and id order; each element synced |
| Profile.MarkLiked | TikTok-Style-App/Features/Profile/ViewModels/ProfileViewModel.swift:57-62 | every element is liked, bookmarked as the store says, content and all four counters kept |
| Profile.MarkSaved | TikTok-Style-App/Features/Profile/ViewModels/ProfileViewModel.swift:67-72 | every element is bookmarked, liked as the store says, content and all four counters kept |
| Profile.AsProfileVideo | TikTok-Style-App/Features/Profile/ViewModels/ProfileViewModel.swift:179-186 | same id and thumbnail, views = likes + comments + shares, not pinned |
| Profile.ProfileViewModel.constructor | TikTok-Style-App/Features/Profile/ViewModels/ProfileViewModel.swift:14-39 | empty lists, not loading, no error, video count 0 |
| Profile.ProfileViewModel.LikedVideos | TikTok-Style-App/Features/Profile/ViewModels/ProfileViewModel.swift:52-63 | each element liked, its id liked and cached, content and all four counters as cached, bookmark flag from the store; every liked and cached id appears; no id twice |
| Profile.ProfileViewModel.SavedVideos | TikTok-Style-App/Features/Profile/ViewModels/ProfileViewModel.swift:65-73 | each element bookmarked, its id bookmarked and cached, content and all four counters as cached, like flag from the store; every bookmarked and cached id appears; no id twice |
| Profile.ProfileViewModel.VideosFor | TikTok-Style-App/Features/Profile/ViewModels/ProfileViewModel.swift:129-140 | locked is empty; videos is the synced grid; liked and saved meet the full liked-tab and saved-tab contracts of `LikedVideos` and `SavedVideos` |
| Profile.ProfileViewModel.VideoAt | TikTok-Style-App/Features/Profile/ViewModels/ProfileViewModel.swift:123-126 | a video exactly for an index in range, and it is that element |
| Profile.ProfileViewModel.BeginFetchProfileVideos | TikTok-Style-App/Features/Profile/ViewModels/ProfileViewModel.swift:78-92 | a no-op while loading; otherwise loading, error cleared, and "people" requested on the drawn page with 30 per page |
| Profile.ProfileViewModel.CompleteFetchProfileVideos | TikTok-Style-App/Features/Profile/ViewModels/ProfileViewModel.swift:93-113 | success: the grid is the shuffled list, the fetched list is kept and cached, the video count equals the number fetched; failure: only the error is set; not loading afterwards |
| Profile.ProfileViewModel.BeginRefresh | TikTok-Style-App/Features/Profile/ViewModels/ProfileViewModel.swift:116-120 | both lists cleared before the fetch guard runs; a started fetch clears the error, a skipped one keeps it; the video count is kept |
| Profile.ProfileViewModel.UpdateProfileCounts | TikTok-Style-App/Features/Profile/ViewModels/ProfileViewModel.swift:171-173 | the profile's video count is the grid's length |
| Profile.ShuffledKeepsCount | TikTok-Style-App/Features/Profile/ViewModels/ProfileViewModel.swift:95 | a shuffle keeps the length and the set of videos |
| Profile.ProfileViewModel.TotalLikes | TikTok-Style-App/Features/Profile/ViewModels/ProfileViewModel.swift:44-46 | zero exactly when nothing is liked, at least one when any video is liked |
| Profile.ToggleLikeMovesTotalLikes | TikTok-Style-App/Features/Profile/ViewModels/ProfileViewModel.swift:44-46 | toggling a like through the shared store moves `totalLikes` up by one for a new like and down by one for an unlike |
| Player.NewPlayer | TikTok-Style-App/Core/Player/VideoPlayerManager.swift:63-64 | a new player holds its item, at the start, paused |
| Player.Detached | TikTok-Style-App/Core/Player/VideoPlayerManager.swift:147-149 | a released player is paused and holds no item |
| Player.RetentionWindow | TikTok-Style-App/Core/Player/VideoPlayerManager.swift:131 | the requested id and its two neighbours, three ids |
| Player.Retained | TikTok-Style-App/Core/Player/VideoPlayerManager.swift:127-145 | at most the cap once above it, unchanged up to it; an id is dropped exactly when the pool is above the cap and the id is outside the window |
| Player.AfterPlay | TikTok-Style-App/Core/Player/VideoPlayerManager.swift:102-112 | the id becomes current whether or not it is resident; the maps keep their keys |
| Player.AfterPause | TikTok-Style-App/Core/Player/VideoPlayerManager.swift:114-119 | the current id is cleared only when it is the paused id |
| Player.AfterPauseAll | TikTok-Style-App/Core/Player/VideoPlayerManager.swift:121-124 | nothing plays, nothing is current, the maps keep their keys |
| Player.Without | TikTok-Style-App/Core/Player/VideoPlayerManager.swift:147-158 | the ids are removed from the players, items and observers maps; every remaining entry of each map is unchanged; current id and serial counter kept |
| Player.AfterReleaseAll | TikTok-Style-App/Core/Player/VideoPlayerManager.swift:160-171 | all three maps empty, nothing current |
| Player.AtMostOnePlaying | TikTok-Style-App/Core/Player/VideoPlayerManager.swift:104-111 | in a consistent pool at most one resident player is playing |
| Player.AfterPlayEntry | TikTok-Style-App/Core/Player/VideoPlayerManager.swift:104-110 | per entry: the target restarts and plays, the previous current one is paused, others are untouched |
| Player.PlayMakesTargetSolePlayer | TikTok-Style-App/Core/Player/VideoPlayerManager.swift:102-112 | afterwards a resident player plays exactly when it is the target, which restarts from zero; the invariants hold |
| Player.PauseOnlyTarget | TikTok-Style-App/Core/Player/VideoPlayerManager.swift:114-119 | only the target is paused; the invariants hold |
| Player.PauseAllStopsEverything | TikTok-Style-App/Core/Player/VideoPlayerManager.swift:121-124 | every entry is paused and otherwise unchanged; the invariants hold |
| Player.WithoutKeepsConsistent | TikTok-Style-App/Core/Player/VideoPlayerManager.swift:147-158 | removing ids from all three maps keeps the invariants and never grows the pool |
| Player.WithoutTwice | TikTok-Style-App/Core/Player/VideoPlayerManager.swift:133-144 | evicting one id after another is evicting both at once |
| Player.CleanupBounds | TikTok-Style-App/Core/Player/VideoPlayerManager.swift:127-145 | after cleanup the pool is within the cap, its ids are `Retained` of the old ones, and kept entries and the current id are untouched |
| Player.AddedKeepsConsistent | TikTok-Style-App/Core/Player/VideoPlayerManager.swift:63-73 | a new entry under a fresh id keeps the invariants and adds one entry |
| Player.AcquireKeepsPoolBounded | TikTok-Style-App/Core/Player/VideoPlayerManager.swift:56-79 | a resident id changes nothing; otherwise the id is resident with a new paused player, the ids are `Retained` of the old ones plus it, the other survivors are untouched, and the pool stays within the cap |
| Player.ScrollingForward | TikTok-Style-App/Core/Player/VideoPlayerManager.swift:56-112 | scrolling forward through videos 1..n keeps n and n-1 resident, nothing older than n-2, at most three players, and only n playing |
| Player.ScrollStepKeys | TikTok-Style-App/Core/Player/VideoPlayerManager.swift:127-145 | one scroll step on ids alone: the new id and the one before survive, nothing older than two back |
| Player.ScrollTo | TikTok-Style-App/Core/Player/VideoPlayerManager.swift:56-112 | acquiring then playing a new id leaves a bounded pool in which only that id plays |
| Player.VideoPlayerManager.constructor | TikTok-Style-App/Core/Player/VideoPlayerManager.swift:18-29 | three empty maps, nothing current |
| Player.VideoPlayerManager.PlayerFor | TikTok-Style-App/Core/Player/VideoPlayerManager.swift:56-79 | the state becomes `AfterAcquire` of the old one and the player returned is the resident one; every evicted player was detached first |
| Player.VideoPlayerManager.SetupLooping | TikTok-Style-App/Core/Player/VideoPlayerManager.swift:82-99 | the id's observer is replaced by one bound to this player and its item; nothing else changes |
| Player.VideoPlayerManager.CleanupIfNeeded | TikTok-Style-App/Core/Player/VideoPlayerManager.swift:127-145 | the state becomes `AfterCleanup` of the old one, within the cap; every evicted player was detached first |
| Player.VideoPlayerManager.EvictOutside | TikTok-Style-App/Core/Player/VideoPlayerManager.swift:133-144 | the loop removes exactly the resident ids outside the window, detaching each |
| Player.VideoPlayerManager.Evict | TikTok-Style-App/Core/Player/VideoPlayerManager.swift:147-158 | the id's player is paused and detached, then removed from all three maps |
| Player.VideoPlayerManager.Play | TikTok-Style-App/Core/Player/VideoPlayerManager.swift:102-112 | the state becomes `AfterPlay` of the old one; the invariants hold |
| Player.VideoPlayerManager.Pause | TikTok-Style-App/Core/Player/VideoPlayerManager.swift:114-119 | the state becomes `AfterPause` of the old one |
| Player.VideoPlayerManager.PauseAll | TikTok-Style-App/Core/Player/VideoPlayerManager.swift:121-124 | the state becomes `AfterPauseAll` of the old one; each player is paused and otherwise unchanged |
| Player.VideoPlayerManager.PauseEach | TikTok-Style-App/Core/Player/VideoPlayerManager.swift:122 | every player paused, nothing else changed |
| Player.VideoPlayerManager.ReleasePlayer | TikTok-Style-App/Core/Player/VideoPlayerManager.swift:147-158 | only this id is removed, after being paused and detached; the current id is kept |
| Player.VideoPlayerManager.ReleaseAll | TikTok-Style-App/Core/Player/VideoPlayerManager.swift:160-171 | every player paused and detached, all three maps emptied, nothing current |
| Player.VideoPlayerManager.DetachEach | TikTok-Style-App/Core/Player/VideoPlayerManager.swift:162 | every player's item is removed, nothing else changed |
| Player.VideoPlayerManager.Preload | TikTok-Style-App/Core/Player/VideoPlayerManager.swift:174-176 | a load is scheduled exactly when no player is resident for the id; nothing changes |
| Player.VideoPlayerManager.CompletePreload | TikTok-Style-App/Core/Player/VideoPlayerManager.swift:178-182 | the completion acquires the player: the state becomes `AfterAcquire` |

## Left out

- The network layer (`NetworkManager.swift`, `VideoService.swift`, Alamofire requests, continuations, timeouts) is not part of this model. A fetch is its outcome, `Fetched(videos)` or `Failed(error)`, passed to the Complete step.
- JSON decoding (`JSONDecoder`, `CodingKeys`) is a library call. Only the decoded record shapes are modelled, with `Option` for the fields the decoder accepts as missing. `fps` is a `real`, not a `Double`.
- Randomness is not modelled as such: `Int.random`, `randomElement()` and `shuffled()` are parameters constrained to the code's ranges or to a permutation.
- AVFoundation is reduced to a record per player. Not modelled:
  - the audio session (`setupAudioSession`, `activateAudioSession`);
  - asset loading in `preload`;
  - volume and stalling settings;
  - the end-of-playback notification handler that seeks and replays.
  `seek(to: .zero)` is modelled as setting the position to 0.
- Observer removal through `NotificationCenter` is modelled only as dropping the per-id observer token.
- Combine publishing (`@Published`, `objectWillChange`) and `observeLikesChanges` are publish/subscribe plumbing; the model reads the store directly.
- `PexelsModels.ToDomainModel`: the force-unwrapped `bestVideoFile!` and `URL(string:)!` trap on a video with no files or an empty link; the model states this as the precondition `Convertible` instead of modelling the crash.
- The profile's `videoCount` is a plain count, the grid's length. The profile's other fields (`UserProfile.default`) are constants of the views and are left out.
- `Lowercased`: only ASCII capitals are lowered, not the full Unicode mapping.
- `ParseURL`: `URL(string:)` is modelled as rejecting only the empty string. Swift rejects some other malformed strings too.
- Integer overflow traps on the counters (`likeCount += 1`) are not modelled, because the integers are unbounded.
- `Feed.FeedViewModel.Binding` requires a non-empty list and a non-negative index, because the code traps on those inputs.
- The `shared` singletons are not modelled: each view model is given the cache and store it uses.
- SwiftUI views, the buffering timer and direct `play()`/`pause()` calls in `VideoPlayerView.swift`, number formatting, colours and the splash screen are not part of this model.
