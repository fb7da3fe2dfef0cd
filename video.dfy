/**
 * The feed's value types `Video` and `VideoUser`.
 *
 * Both are Swift structs (value semantics) with synthesised field-wise
 * equality; a Dafny datatype has exactly that equality. URLs are kept as
 * their strings.
 */
module Videos {
  import opened Options

  datatype VideoUser = VideoUser(
    id: int,
    name: string,
    username: string,
    avatarURL: Option<string>)

  /**
   * `id`, `user`, `videoURL`, `thumbnailURL`, `caption` and `musicTitle` are
   * `let` fields; the four counters and the two flags are `var` fields, which
   * the model updates with datatype update (`v.(isLiked := true)`), changing
   * that field alone.
   */
  datatype Video = Video(
    id: int,
    user: VideoUser,
    videoURL: string,
    thumbnailURL: Option<string>,
    likeCount: int,
    commentCount: int,
    shareCount: int,
    bookmarkCount: int,
    isLiked: bool,
    isBookmarked: bool,
    caption: Option<string>,
    musicTitle: Option<string>)

  /** The memberwise initializer, where `isLiked` and `isBookmarked` default to false. */
  function NewVideo(
    id: int, user: VideoUser, videoURL: string, thumbnailURL: Option<string>,
    likeCount: int, commentCount: int, shareCount: int, bookmarkCount: int,
    caption: Option<string>, musicTitle: Option<string>): (v: Video)
    ensures !v.isLiked && !v.isBookmarked
    ensures v.id == id && v.user == user && v.videoURL == videoURL && v.thumbnailURL == thumbnailURL
    ensures v.caption == caption && v.musicTitle == musicTitle
    ensures v.likeCount == likeCount && v.commentCount == commentCount
    ensures v.shareCount == shareCount && v.bookmarkCount == bookmarkCount
  {
    Video(id, user, videoURL, thumbnailURL, likeCount, commentCount, shareCount, bookmarkCount,
          false, false, caption, musicTitle)
  }

  /** The two videos agree on every `let` field: one was obtained from the other by editing `var` fields only. */
  predicate SameContent(a: Video, b: Video) {
    && a.id == b.id
    && a.user == b.user
    && a.videoURL == b.videoURL
    && a.thumbnailURL == b.thumbnailURL
    && a.caption == b.caption
    && a.musicTitle == b.musicTitle
  }

  /** The two videos carry the same four counters. */
  predicate SameCounters(a: Video, b: Video) {
    && a.likeCount == b.likeCount
    && a.commentCount == b.commentCount
    && a.shareCount == b.shareCount
    && a.bookmarkCount == b.bookmarkCount
  }

  /** The ids of a list of videos, in order. */
  function Ids(vs: seq<Video>): (ids: seq<int>)
    ensures |ids| == |vs|
    ensures forall i :: 0 <= i < |vs| ==> ids[i] == vs[i].id
  {
    if vs == [] then [] else [vs[0].id] + Ids(vs[1..])
  }

  /** Swift's `firstIndex(where: { $0.id == id })`. */
  function FirstIndexOf(vs: seq<Video>, id: int): (r: Option<nat>)
    ensures r.Some? ==> r.value < |vs| && vs[r.value].id == id
    ensures r.Some? ==> forall j :: 0 <= j < r.value ==> vs[j].id != id
    ensures r.None? <==> forall j :: 0 <= j < |vs| ==> vs[j].id != id
  {
    if vs == [] then None
    else if vs[0].id == id then Some(0)
    else match FirstIndexOf(vs[1..], id)
      case None => None
      case Some(i) => Some(i + 1)
  }
}
