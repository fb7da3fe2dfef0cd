/**
 * `VideoCache`: the shared dictionary from video id to the last `Video`
 * stored under it, which lets the profile show liked and saved videos that
 * were loaded by the feed.
 */
module VideoCaching {
  import opened Options
  import opened Videos
  import opened Sets

  /** Every key maps to a video with that id: `cache` always stores `v` under `v.id`. */
  ghost predicate KeyedById(m: map<int, Video>) {
    forall k :: k in m ==> m[k].id == k
  }

  /** Sequential insertion, `m[v.id] = v` for each `v` in order: the specification of `cache(videos:)`. */
  function InsertAll(m: map<int, Video>, vs: seq<Video>): map<int, Video>
  {
    if vs == [] then m else InsertAll(m, vs[..|vs| - 1])[vs[|vs| - 1].id := vs[|vs| - 1]]
  }

  lemma {:induction false} InsertAllKeys(m: map<int, Video>, vs: seq<Video>)
    ensures InsertAll(m, vs).Keys == m.Keys + (set v | v in vs :: v.id)
  {
    if vs != [] {
      var init := vs[..|vs| - 1];
      InsertAllKeys(m, init);
      assert vs == init + [vs[|vs| - 1]];
      assert (set v | v in vs :: v.id) == (set v | v in init :: v.id) + {vs[|vs| - 1].id};
    }
  }

  lemma {:induction false} InsertAllKeyedById(m: map<int, Video>, vs: seq<Video>)
    requires KeyedById(m)
    ensures KeyedById(InsertAll(m, vs))
  {
    if vs != [] {
      InsertAllKeyedById(m, vs[..|vs| - 1]);
    }
  }

  /** For duplicate ids the last occurrence wins. */
  lemma {:induction false} InsertAllLastWins(m: map<int, Video>, vs: seq<Video>, i: nat)
    requires i < |vs|
    requires forall j :: i < j < |vs| ==> vs[j].id != vs[i].id
    ensures vs[i].id in InsertAll(m, vs) && InsertAll(m, vs)[vs[i].id] == vs[i]
  {
    if i < |vs| - 1 {
      InsertAllLastWins(m, vs[..|vs| - 1], i);
    }
  }

  /** Ids that no inserted video carries keep their old entry (or stay absent). */
  lemma {:induction false} InsertAllUntouched(m: map<int, Video>, vs: seq<Video>, k: int)
    requires forall j :: 0 <= j < |vs| ==> vs[j].id != k
    ensures k in InsertAll(m, vs) <==> k in m
    ensures k in m ==> InsertAll(m, vs)[k] == m[k]
  {
    if vs != [] {
      InsertAllUntouched(m, vs[..|vs| - 1], k);
    }
  }

  class VideoCache {
    var cachedVideos: map<int, Video>

    ghost predicate Valid()
      reads this
    {
      KeyedById(cachedVideos)
    }

    constructor ()
      ensures Valid() && cachedVideos == map[]
    {
      cachedVideos := map[];
    }

    /** `cache(video:)`: stores `video` under its id, replacing what was there. */
    method CacheVideo(video: Video)
      requires Valid()
      modifies this
      ensures Valid()
      ensures cachedVideos == old(cachedVideos)[video.id := video]
      ensures VideoFor(video.id) == Some(video)
    {
      cachedVideos := cachedVideos[video.id := video];
    }

    /** `cache(videos:)`: the loop of `cache(video:)` over the list. */
    method CacheVideos(videos: seq<Video>)
      requires Valid()
      modifies this
      ensures Valid()
      ensures cachedVideos == InsertAll(old(cachedVideos), videos)
    {
      var i := 0;
      while i < |videos|
        invariant 0 <= i <= |videos|
        invariant cachedVideos == InsertAll(old(cachedVideos), videos[..i])
      {
        assert videos[..i + 1][..i] == videos[..i];
        cachedVideos := cachedVideos[videos[i].id := videos[i]];
        i := i + 1;
      }
      assert videos[..i] == videos;
      InsertAllKeyedById(old(cachedVideos), videos);
    }

    /** `video(for:)`. */
    function VideoFor(id: int): (r: Option<Video>)
      reads this
      requires Valid()
      ensures r.Some? <==> id in cachedVideos
      ensures r.Some? ==> r.value.id == id && r.value == cachedVideos[id]
    {
      if id in cachedVideos then Some(cachedVideos[id]) else None
    }

    /** `allVideos`: the dictionary's values, in the dictionary's (unspecified) order. */
    method AllVideos() returns (r: seq<Video>)
      requires Valid()
      ensures |r| == |cachedVideos|
      ensures forall v :: v in r <==> v.id in cachedVideos && cachedVideos[v.id] == v
      ensures forall i, j :: 0 <= i < j < |r| ==> r[i].id != r[j].id
    {
      r := VideosFor(cachedVideos.Keys);
      assert cachedVideos.Keys * cachedVideos.Keys == cachedVideos.Keys;
    }

    /** `videos(for:)`: `ids.compactMap { cachedVideos[$0] }`, visiting the set in an unspecified order. */
    method VideosFor(ids: set<int>) returns (r: seq<Video>)
      requires Valid()
      ensures |r| == |ids * cachedVideos.Keys|
      ensures forall i :: 0 <= i < |r| ==> r[i].id in ids && r[i].id in cachedVideos && r[i] == cachedVideos[r[i].id]
      ensures forall k :: k in ids && k in cachedVideos ==> cachedVideos[k] in r
      ensures forall i, j :: 0 <= i < j < |r| ==> r[i].id != r[j].id
    {
      r := [];
      var toVisit := ids;
      ghost var found: set<int> := {};
      while toVisit != {}
        invariant toVisit <= ids
        invariant found <= ids && found <= cachedVideos.Keys && found !! toVisit
        invariant forall k :: k in ids && k in cachedVideos ==> k in found || k in toVisit
        invariant |r| == |found|
        invariant forall i :: 0 <= i < |r| ==> r[i].id in found && r[i] == cachedVideos[r[i].id]
        invariant forall k :: k in found ==> cachedVideos[k] in r
        invariant forall i, j :: 0 <= i < j < |r| ==> r[i].id != r[j].id
        decreases toVisit
      {
        ghost var someId := Member(toVisit);
        var id :| id in toVisit;
        if id in cachedVideos {
          assert id !in found;
          r := r + [cachedVideos[id]];
          found := found + {id};
        }
        toVisit := toVisit - {id};
      }
      assert forall k :: k in found <==> k in ids * cachedVideos.Keys;
      assert found == ids * cachedVideos.Keys;
    }

    /** `clear`. */
    method Clear()
      modifies this
      ensures Valid() && cachedVideos == map[]
    {
      cachedVideos := map[];
    }
  }
}
