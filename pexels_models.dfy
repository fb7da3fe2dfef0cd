/**
 * The decoded shapes of a catalog search response and their conversion into
 * the app's `Video`.
 *
 * JSON decoding itself is a library call and is not modelled: a decoded
 * response is a value of these datatypes, with `Option` for every field the
 * decoder accepts as missing. `lowercased()` is modelled on ASCII letters
 * only. `URL(string:)` is modelled as: the empty string gives `nil`, any
 * other string gives a URL with that text. The random counts and caption of
 * `toDomainModel` are a `RandomDraw` passed in, constrained to the ranges the
 * code draws from.
 */
module PexelsModels {
  import opened Options
  import opened Videos

  datatype PexelsUser = PexelsUser(id: int, name: string, url: string)

  datatype PexelsVideoFile = PexelsVideoFile(
    id: int,
    quality: Option<string>,
    fileType: Option<string>,
    width: Option<int>,
    height: Option<int>,
    fps: Option<real>,
    link: string)

  datatype PexelsVideoPicture = PexelsVideoPicture(id: int, picture: string, nr: int)

  datatype PexelsVideo = PexelsVideo(
    id: int,
    width: int,
    height: int,
    url: string,
    image: string,
    duration: int,
    user: PexelsUser,
    videoFiles: seq<PexelsVideoFile>,
    videoPictures: seq<PexelsVideoPicture>)

  datatype PexelsVideoResponse = PexelsVideoResponse(
    page: int,
    perPage: int,
    totalResults: int,
    url: Option<string>,
    videos: seq<PexelsVideo>,
    nextPage: Option<string>,
    prevPage: Option<string>)

  // ---------------------------------------------------------------------
  // Strings

  function LowerChar(c: char): char {
    if 'A' <= c <= 'Z' then (c as int + 32) as char else c
  }

  /** `lowercased()`, on ASCII letters. */
  function Lowercased(s: string): (r: string)
    ensures |r| == |s|
    ensures forall i :: 0 <= i < |s| ==> r[i] == LowerChar(s[i])
  {
    if s == [] then [] else [LowerChar(s[0])] + Lowercased(s[1..])
  }

  /** `replacingOccurrences(of: " ", with: "_")`. */
  function ReplacingSpaces(s: string): (r: string)
    ensures |r| == |s|
    ensures forall i :: 0 <= i < |s| ==> r[i] == if s[i] == ' ' then '_' else s[i]
  {
    if s == [] then [] else [if s[0] == ' ' then '_' else s[0]] + ReplacingSpaces(s[1..])
  }

  /** The username derived from a display name: lower-cased, with every space replaced by `_`. */
  function Username(name: string): (r: string)
    ensures |r| == |name|
    ensures forall i :: 0 <= i < |r| ==> r[i] != ' ' && !('A' <= r[i] <= 'Z')
    ensures forall i :: 0 <= i < |r| ==> r[i] == if name[i] == ' ' then '_' else LowerChar(name[i])
  {
    ReplacingSpaces(Lowercased(name))
  }

  lemma UsernameOfTestUser()
    ensures Username("Test User") == "test_user"
  {
    var r := Username("Test User");
    assert |r| == 9;
    assert r == ['t', 'e', 's', 't', '_', 'u', 's', 'e', 'r'];
  }

  /** `URL(string:)`: the empty string is not a URL. */
  function ParseURL(s: string): (r: Option<string>)
    ensures r.Some? <==> s != ""
    ensures r.Some? ==> r.value == s
  {
    if s == "" then None else Some(s)
  }

  // ---------------------------------------------------------------------
  // Source selection

  const PreferredQualities: seq<string> := ["hd", "sd", "hls"]

  /** `$0.quality?.lowercased() == quality`: a file without a quality matches nothing. */
  predicate HasQuality(f: PexelsVideoFile, quality: string) {
    f.quality.Some? && Lowercased(f.quality.value) == quality
  }

  /** `videoFiles.firstIndex(where: { $0.quality?.lowercased() == quality })`. */
  function IndexOfQuality(files: seq<PexelsVideoFile>, quality: string): (r: Option<nat>)
    ensures r.Some? ==> r.value < |files| && HasQuality(files[r.value], quality)
    ensures r.Some? ==> forall j :: 0 <= j < r.value ==> !HasQuality(files[j], quality)
    ensures r.None? ==> forall j :: 0 <= j < |files| ==> !HasQuality(files[j], quality)
  {
    if files == [] then None
    else if HasQuality(files[0], quality) then Some(0)
    else match IndexOfQuality(files[1..], quality)
      case None => None
      case Some(i) => Some(i + 1)
  }

  /** The loop over the preferred qualities: the first quality with a matching file wins. */
  function IndexOfPreferred(files: seq<PexelsVideoFile>, qualities: seq<string>): (r: Option<nat>)
    ensures r.Some? ==> r.value < |files|
    ensures r.Some? ==> exists k :: 0 <= k < |qualities| && HasQuality(files[r.value], qualities[k])
    ensures r.None? ==> forall k, i :: 0 <= k < |qualities| && 0 <= i < |files| ==> !HasQuality(files[i], qualities[k])
  {
    if qualities == [] then None
    else match IndexOfQuality(files, qualities[0])
      case Some(i) => Some(i)
      case None => IndexOfPreferred(files, qualities[1..])
  }

  /** The index `bestVideoFile` picks: a preferred quality, else the first file. */
  function BestFileIndex(files: seq<PexelsVideoFile>): (r: Option<nat>)
    ensures r.None? <==> files == []
    ensures r.Some? ==> r.value < |files|
  {
    match IndexOfPreferred(files, PreferredQualities)
    case Some(i) => Some(i)
    case None => if files == [] then None else Some(0)
  }

  /** `bestVideoFile`. */
  function BestVideoFile(files: seq<PexelsVideoFile>): (r: Option<PexelsVideoFile>)
    ensures r.None? <==> files == []
    ensures r.Some? ==> r.value in files
  {
    match BestFileIndex(files)
    case Some(i) => Some(files[i])
    case None => None
  }

  /**
   * An independent statement of the preference: the rank of a file is the
   * position of its quality in `["hd", "sd", "hls"]`, 3 for anything else.
   */
  function Rank(f: PexelsVideoFile): nat {
    if HasQuality(f, "hd") then 0
    else if HasQuality(f, "sd") then 1
    else if HasQuality(f, "hls") then 2
    else 3
  }

  /** The file at `i` has the least rank of all, and is the first file of that rank. */
  ghost predicate IsBestAt(files: seq<PexelsVideoFile>, i: nat) {
    && i < |files|
    && (forall j :: 0 <= j < |files| ==> Rank(files[i]) <= Rank(files[j]))
    && (forall j :: 0 <= j < i ==> Rank(files[i]) < Rank(files[j]))
  }

  lemma {:induction false} BestFileIndexIsBest(files: seq<PexelsVideoFile>)
    requires files != []
    ensures BestFileIndex(files).Some? && IsBestAt(files, BestFileIndex(files).value)
  {
    var hd := IndexOfQuality(files, "hd");
    var sd := IndexOfQuality(files, "sd");
    var hls := IndexOfQuality(files, "hls");
    var hlsOnly: seq<string> := ["hls"];
    var sdHls: seq<string> := ["sd", "hls"];
    assert hlsOnly[1..] == [] && sdHls[1..] == hlsOnly && PreferredQualities[1..] == sdHls;
    assert IndexOfPreferred(files, hlsOnly) == if hls.Some? then hls else None;
    assert IndexOfPreferred(files, sdHls) == if sd.Some? then sd else if hls.Some? then hls else None;
    assert IndexOfPreferred(files, PreferredQualities) ==
      if hd.Some? then hd else if sd.Some? then sd else if hls.Some? then hls else None;
    var i := BestFileIndex(files).value;
    forall j | 0 <= j < |files|
      ensures Rank(files[i]) <= Rank(files[j])
      ensures j < i ==> Rank(files[i]) < Rank(files[j])
    {
      QualityExclusive(files[j]);
    }
  }

  /** A lower-cased quality equals at most one of the preferred names. */
  lemma QualityExclusive(f: PexelsVideoFile)
    ensures HasQuality(f, "hd") ==> !HasQuality(f, "sd") && !HasQuality(f, "hls")
    ensures HasQuality(f, "sd") ==> !HasQuality(f, "hls")
  {
  }

  /** A file without a quality is chosen only through the first-file fallback. */
  lemma NilQualityOnlyAsFallback(files: seq<PexelsVideoFile>)
    requires files != [] && BestVideoFile(files).value.quality.None?
    ensures BestFileIndex(files) == Some(0)
    ensures forall j :: 0 <= j < |files| ==> Rank(files[j]) == 3
  {
    BestFileIndexIsBest(files);
  }

  // ---------------------------------------------------------------------
  // Conversion to the domain model

  const Captions: seq<string> := [
    "Check out this amazing moment! #fyp #viral",
    "POV: When life gives you lemons \U{1F34B} #relatable",
    "This is everything! \U{2728} #trending #foryou",
    "Wait for it... \U{1F440} #surprise #mustwatch",
    "Making memories one video at a time \U{1F3AC} #content",
    "Can't stop watching this! #addictive #loop",
    "Tag someone who needs to see this \U{1F447} #share",
    "The vibes are immaculate \U{2728} #mood #aesthetic"
  ]

  /** The outcomes of the `Int.random(in:)` calls and of `captions.randomElement()`. */
  datatype RandomDraw = RandomDraw(
    likeCount: int, commentCount: int, shareCount: int, bookmarkCount: int, captionIndex: nat)

  predicate ValidDraw(d: RandomDraw) {
    && 1000 <= d.likeCount <= 100000
    && 100 <= d.commentCount <= 5000
    && 50 <= d.shareCount <= 2000
    && 100 <= d.bookmarkCount <= 10000
    && d.captionIndex < |Captions|
  }

  /** `toDomainModel` force-unwraps the URL of the chosen file: it needs one, with a non-empty link. */
  predicate Convertible(v: PexelsVideo) {
    var f := BestVideoFile(v.videoFiles);
    f.Some? && f.value.link != ""
  }

  /** `toDomainModel`. */
  function ToDomainModel(v: PexelsVideo, draw: RandomDraw): (r: Video)
    requires Convertible(v) && ValidDraw(draw)
    ensures r.id == v.id
    ensures r.user.id == v.user.id && r.user.name == v.user.name
    ensures r.user.username == Username(v.user.name) && r.user.avatarURL == None
    ensures r.videoURL == BestVideoFile(v.videoFiles).value.link
    ensures r.thumbnailURL == ParseURL(v.image)
    ensures 1000 <= r.likeCount <= 100000 && 100 <= r.commentCount <= 5000
    ensures 50 <= r.shareCount <= 2000 && 100 <= r.bookmarkCount <= 10000
    ensures r.caption.Some? && r.caption.value in Captions
    ensures r.musicTitle == Some("Original Sound - " + v.user.name)
    ensures !r.isLiked && !r.isBookmarked
  {
    var file := BestVideoFile(v.videoFiles);
    NewVideo(
      v.id,
      VideoUser(v.user.id, v.user.name, Username(v.user.name), None),
      ParseURL(file.value.link).value,
      ParseURL(v.image),
      draw.likeCount, draw.commentCount, draw.shareCount, draw.bookmarkCount,
      Some(Captions[draw.captionIndex]),
      Some("Original Sound - " + v.user.name))
  }

  /** `toDomainModels`: one draw per video, results in the same order. */
  function ToDomainModels(vs: seq<PexelsVideo>, draws: seq<RandomDraw>): (r: seq<Video>)
    requires |draws| == |vs|
    requires forall i :: 0 <= i < |vs| ==> Convertible(vs[i]) && ValidDraw(draws[i])
    ensures |r| == |vs|
    ensures forall i :: 0 <= i < |vs| ==> r[i] == ToDomainModel(vs[i], draws[i])
    ensures forall i :: 0 <= i < |vs| ==> r[i].id == vs[i].id
  {
    if vs == [] then []
    else
      assert forall i :: 0 <= i < |vs| - 1 ==> vs[1..][i] == vs[i + 1] && draws[1..][i] == draws[i + 1];
      var rest := ToDomainModels(vs[1..], draws[1..]);
      [ToDomainModel(vs[0], draws[0])] + rest
  }

  /** The catalog video of the conversion example: one "hd" file, user "Test User". */
  const ExampleVideo := PexelsVideo(
    999, 1080, 1920, "https://pexels.com/video/999", "https://images.pexels.com/999.jpg", 15,
    PexelsUser(1, "Test User", "https://pexels.com/@testuser"),
    [PexelsVideoFile(1, Some("hd"), Some("video/mp4"), Some(1080), Some(1920), Some(30.0), "https://videos.pexels.com/999.mp4")],
    [])

  /** Converting the example keeps its id and user, derives "test_user", and plays its only file. */
  lemma ConvertingExampleVideo(draw: RandomDraw)
    requires ValidDraw(draw)
    ensures Convertible(ExampleVideo)
    ensures var r := ToDomainModel(ExampleVideo, draw);
      && r.id == 999 && r.user.name == "Test User" && r.user.username == "test_user"
      && r.videoURL == "https://videos.pexels.com/999.mp4" && r.thumbnailURL.Some?
  {
    var files := ExampleVideo.videoFiles;
    assert IndexOfPreferred(files, PreferredQualities) == Some(0) by {
      assert HasQuality(files[0], "hd");
      assert IndexOfQuality(files, "hd") == Some(0);
    }
    assert BestFileIndex(files) == Some(0);
    UsernameOfTestUser();
  }
}
