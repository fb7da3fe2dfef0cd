/**
 * `LikesStore`: the liked and bookmarked video ids, two sets of integers
 * mirrored into a key-value store (`UserDefaults`) under two fixed keys, so
 * that they survive an app restart.
 */
module Likes {
  import opened Sets

  const LikedKey: string := "liked_video_ids"
  const BookmarkedKey: string := "bookmarked_video_ids"

  /** What a key of the defaults store may hold: an array of integers, or some other property-list value. */
  datatype StoredValue = IntArray(items: seq<int>) | OtherValue

  /** `UserDefaults`: a shared, mutable key-value store. */
  class UserDefaults {
    var entries: map<string, StoredValue>

    constructor (entries: map<string, StoredValue>)
      ensures this.entries == entries
    {
      this.entries := entries;
    }
  }

  /** `defaults.array(forKey:) as? [Int]`, read as a set; a missing key or a value of another type gives the empty set. */
  function LoadIds(entries: map<string, StoredValue>, key: string): (r: set<int>)
    ensures key !in entries || !entries[key].IntArray? ==> r == {}
    ensures key in entries && entries[key].IntArray? ==> forall id :: id in r <==> id in entries[key].items
  {
    if key in entries && entries[key].IntArray? then set id | id in entries[key].items else {}
  }

  /** Membership after a toggle: the membership of `id` flips, every other id keeps its own. */
  function Toggled(s: set<int>, id: int): (r: set<int>)
    ensures id in r <==> id !in s
    ensures forall k :: k != id ==> (k in r <==> k in s)
  {
    if id in s then s - {id} else s + {id}
  }

  /** `Array(set)`: the members of a set in some order, each once. */
  method ArrayOf(s: set<int>) returns (r: seq<int>)
    ensures forall x :: x in r <==> x in s
    ensures forall i, j :: 0 <= i < j < |r| ==> r[i] != r[j]
  {
    r := [];
    var rest := s;
    while rest != {}
      invariant rest <= s
      invariant forall x :: x in r <==> x in s && x !in rest
      invariant forall i, j :: 0 <= i < j < |r| ==> r[i] != r[j]
      decreases rest
    {
      ghost var someId := Member(rest);
      var x :| x in rest;
      r := r + [x];
      rest := rest - {x};
    }
  }

  class LikesStore {
    const defaults: UserDefaults
    var likedIds: set<int>
    var bookmarkedIds: set<int>

    /** The in-memory sets are what a reload of the defaults store would read back. */
    ghost predicate Valid()
      reads this, defaults
    {
      && likedIds == LoadIds(defaults.entries, LikedKey)
      && bookmarkedIds == LoadIds(defaults.entries, BookmarkedKey)
    }

    /** `init(defaults:)`, which runs `loadFromStorage`. */
    constructor (defaults: UserDefaults)
      ensures this.defaults == defaults && Valid()
      ensures likedIds == LoadIds(defaults.entries, LikedKey)
      ensures bookmarkedIds == LoadIds(defaults.entries, BookmarkedKey)
    {
      this.defaults := defaults;
      likedIds := {};
      bookmarkedIds := {};
      new;
      LoadFromStorage();
    }

    /** `loadFromStorage`: each set is replaced only when its key holds an integer array. */
    method LoadFromStorage()
      modifies this
      ensures likedIds == (if LikedKey in defaults.entries && defaults.entries[LikedKey].IntArray?
                           then LoadIds(defaults.entries, LikedKey) else old(likedIds))
      ensures bookmarkedIds == (if BookmarkedKey in defaults.entries && defaults.entries[BookmarkedKey].IntArray?
                                then LoadIds(defaults.entries, BookmarkedKey) else old(bookmarkedIds))
    {
      if LikedKey in defaults.entries && defaults.entries[LikedKey].IntArray? {
        likedIds := set id | id in defaults.entries[LikedKey].items;
      }
      if BookmarkedKey in defaults.entries && defaults.entries[BookmarkedKey].IntArray? {
        bookmarkedIds := set id | id in defaults.entries[BookmarkedKey].items;
      }
    }

    /** `saveLikes`: writes the liked set as an array under its key. */
    method SaveLikes()
      modifies defaults
      ensures LikedKey in defaults.entries && defaults.entries[LikedKey].IntArray?
      ensures LoadIds(defaults.entries, LikedKey) == likedIds
      ensures forall k :: k != LikedKey ==> (k in defaults.entries <==> k in old(defaults.entries))
      ensures forall k :: k != LikedKey && k in defaults.entries ==> defaults.entries[k] == old(defaults.entries)[k]
    {
      var items := ArrayOf(likedIds);
      defaults.entries := defaults.entries[LikedKey := IntArray(items)];
      assert forall id :: id in LoadIds(defaults.entries, LikedKey) <==> id in likedIds;
    }

    /** `saveBookmarks`: writes the bookmarked set as an array under its key. */
    method SaveBookmarks()
      modifies defaults
      ensures BookmarkedKey in defaults.entries && defaults.entries[BookmarkedKey].IntArray?
      ensures LoadIds(defaults.entries, BookmarkedKey) == bookmarkedIds
      ensures forall k :: k != BookmarkedKey ==> (k in defaults.entries <==> k in old(defaults.entries))
      ensures forall k :: k != BookmarkedKey && k in defaults.entries ==> defaults.entries[k] == old(defaults.entries)[k]
    {
      var items := ArrayOf(bookmarkedIds);
      defaults.entries := defaults.entries[BookmarkedKey := IntArray(items)];
      assert forall id :: id in LoadIds(defaults.entries, BookmarkedKey) <==> id in bookmarkedIds;
    }

    /** `isLiked(videoId:)`. */
    function IsLiked(videoId: int): (r: bool)
      reads this
      ensures r <==> videoId in likedIds
    {
      videoId in likedIds
    }

    /** `isBookmarked(videoId:)`. */
    function IsBookmarked(videoId: int): (r: bool)
      reads this
      ensures r <==> videoId in bookmarkedIds
    {
      videoId in bookmarkedIds
    }

    /** `likedVideoIds()`. */
    function LikedVideoIds(): (r: set<int>)
      reads this
      ensures forall id :: id in r <==> IsLiked(id)
    {
      likedIds
    }

    /** `bookmarkedVideoIds()`. */
    function BookmarkedVideoIds(): (r: set<int>)
      reads this
      ensures forall id :: id in r <==> IsBookmarked(id)
    {
      bookmarkedIds
    }

    /** `toggleLike(videoId:)`: flips the membership of `videoId`, persists, and returns the new membership. */
    method ToggleLike(videoId: int) returns (nowLiked: bool)
      requires Valid()
      modifies this, defaults
      ensures Valid()
      ensures likedIds == Toggled(old(likedIds), videoId)
      ensures nowLiked == (videoId in likedIds) && nowLiked == (videoId !in old(likedIds))
      ensures bookmarkedIds == old(bookmarkedIds)
      ensures LikedKey in defaults.entries && defaults.entries[LikedKey].IntArray?
      ensures forall k :: k != LikedKey ==> (k in defaults.entries <==> k in old(defaults.entries))
      ensures forall k :: k != LikedKey && k in defaults.entries ==> defaults.entries[k] == old(defaults.entries)[k]
    {
      if videoId in likedIds {
        likedIds := likedIds - {videoId};
        SaveLikes();
        nowLiked := false;
      } else {
        likedIds := likedIds + {videoId};
        SaveLikes();
        nowLiked := true;
      }
    }

    /** `setLiked(videoId:isLiked:)`. */
    method SetLiked(videoId: int, isLiked: bool)
      requires Valid()
      modifies this, defaults
      ensures Valid()
      ensures likedIds == if isLiked then old(likedIds) + {videoId} else old(likedIds) - {videoId}
      ensures IsLiked(videoId) == isLiked
      ensures bookmarkedIds == old(bookmarkedIds)
      ensures LikedKey in defaults.entries && defaults.entries[LikedKey].IntArray?
      ensures forall k :: k != LikedKey ==> (k in defaults.entries <==> k in old(defaults.entries))
      ensures forall k :: k != LikedKey && k in defaults.entries ==> defaults.entries[k] == old(defaults.entries)[k]
    {
      if isLiked {
        likedIds := likedIds + {videoId};
      } else {
        likedIds := likedIds - {videoId};
      }
      SaveLikes();
    }

    /** `toggleBookmark(videoId:)`. */
    method ToggleBookmark(videoId: int) returns (nowBookmarked: bool)
      requires Valid()
      modifies this, defaults
      ensures Valid()
      ensures bookmarkedIds == Toggled(old(bookmarkedIds), videoId)
      ensures nowBookmarked == (videoId in bookmarkedIds) && nowBookmarked == (videoId !in old(bookmarkedIds))
      ensures likedIds == old(likedIds)
      ensures BookmarkedKey in defaults.entries && defaults.entries[BookmarkedKey].IntArray?
      ensures forall k :: k != BookmarkedKey ==> (k in defaults.entries <==> k in old(defaults.entries))
      ensures forall k :: k != BookmarkedKey && k in defaults.entries ==> defaults.entries[k] == old(defaults.entries)[k]
    {
      if videoId in bookmarkedIds {
        bookmarkedIds := bookmarkedIds - {videoId};
        SaveBookmarks();
        nowBookmarked := false;
      } else {
        bookmarkedIds := bookmarkedIds + {videoId};
        SaveBookmarks();
        nowBookmarked := true;
      }
    }

    /** `setBookmarked(videoId:isBookmarked:)`. */
    method SetBookmarked(videoId: int, isBookmarked: bool)
      requires Valid()
      modifies this, defaults
      ensures Valid()
      ensures bookmarkedIds == if isBookmarked then old(bookmarkedIds) + {videoId} else old(bookmarkedIds) - {videoId}
      ensures IsBookmarked(videoId) == isBookmarked
      ensures likedIds == old(likedIds)
      ensures BookmarkedKey in defaults.entries && defaults.entries[BookmarkedKey].IntArray?
      ensures forall k :: k != BookmarkedKey ==> (k in defaults.entries <==> k in old(defaults.entries))
      ensures forall k :: k != BookmarkedKey && k in defaults.entries ==> defaults.entries[k] == old(defaults.entries)[k]
    {
      if isBookmarked {
        bookmarkedIds := bookmarkedIds + {videoId};
      } else {
        bookmarkedIds := bookmarkedIds - {videoId};
      }
      SaveBookmarks();
    }

    /** `clearAll`: empties both sets and removes both keys from the store. */
    method ClearAll()
      modifies this, defaults
      ensures Valid()
      ensures likedIds == {} && bookmarkedIds == {}
      ensures defaults.entries == old(defaults.entries) - {LikedKey, BookmarkedKey}
    {
      likedIds := {};
      bookmarkedIds := {};
      defaults.entries := defaults.entries - {LikedKey};
      defaults.entries := defaults.entries - {BookmarkedKey};
    }
  }

  /** A fresh store over the same defaults reads back exactly the sets of a valid store. */
  method Reload(store: LikesStore) returns (reloaded: LikesStore)
    requires store.Valid()
    ensures reloaded.likedIds == store.likedIds
    ensures reloaded.bookmarkedIds == store.bookmarkedIds
  {
    reloaded := new LikesStore(store.defaults);
  }

  /** Toggling each id of a list in turn. */
  function ToggledAll(s: set<int>, ids: seq<int>): set<int>
    decreases |ids|
  {
    if ids == [] then s else ToggledAll(Toggled(s, ids[0]), ids[1..])
  }

  /** Toggling twice restores the set. */
  lemma ToggleTwice(s: set<int>, id: int)
    ensures Toggled(Toggled(s, id), id) == s
  {
  }

  /** A toggle moves the number of members by exactly one: down for a member, up otherwise. */
  lemma ToggledSize(s: set<int>, id: int)
    ensures |Toggled(s, id)| == if id in s then |s| - 1 else |s| + 1
  {
    if id in s {
      assert s == Toggled(s, id) + {id};
    }
  }

  /** Toggling n distinct ids, starting from a set that holds none of them, adds exactly those n ids. */
  lemma {:induction false} ToggleDistinct(s: set<int>, ids: seq<int>)
    requires forall i, j :: 0 <= i < j < |ids| ==> ids[i] != ids[j]
    requires forall i :: 0 <= i < |ids| ==> ids[i] !in s
    ensures ToggledAll(s, ids) == s + set id | id in ids
    ensures |ToggledAll(s, ids)| == |s| + |ids|
    decreases |ids|
  {
    if ids != [] {
      var rest := ids[1..];
      ToggleDistinct(s + {ids[0]}, rest);
      assert (set id | id in ids) == {ids[0]} + set id | id in rest;
    }
  }
}
