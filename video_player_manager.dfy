/**
 * `VideoPlayerManager`: the pool of live players behind the feed. It keeps
 * one player per resident video id, in three dictionaries that share one key
 * set (`players`, `playerItems`, `loopObservers`), evicts everything outside
 * the window around the id just requested once more than three are resident,
 * and makes sure that only the current video's player is playing.
 *
 * A player is an abstract record of its transport state: the item it holds,
 * whether it is playing, and its playback position. Its `serial` stands for
 * the object's identity; the manager hands out a fresh serial for each player
 * it creates. A loop observer is the token registered for a player and its
 * item.
 */
module Player {
  import opened Options
  import opened Sets

  datatype PlayerItem = PlayerItem(url: string)

  datatype AVPlayer = AVPlayer(serial: nat, currentItem: Option<PlayerItem>, playing: bool, position: nat)

  /** The looping registration: on the item's end of playback, seek that player to zero and play. */
  datatype LoopObserver = LoopObserver(playerSerial: nat, item: PlayerItem)

  /** `AVPlayer(playerItem:)`: a new player holds its item, at the start, paused. */
  function NewPlayer(serial: nat, item: PlayerItem): (p: AVPlayer)
    ensures p.serial == serial && p.currentItem == Some(item) && !p.playing && p.position == 0
  {
    AVPlayer(serial, Some(item), false, 0)
  }

  /** `pause()` followed by `replaceCurrentItem(with: nil)`: the state a player is left in when it is released. */
  function Detached(p: AVPlayer): (r: AVPlayer)
    ensures r.serial == p.serial && !r.playing && r.currentItem == None && r.position == p.position
  {
    p.(playing := false, currentItem := None)
  }

  const MaxCachedPlayers: nat := 3

  /** The ids kept by eviction: the id just requested and its two neighbours. */
  function RetentionWindow(currentId: int): (r: set<int>)
    ensures currentId in r && currentId - 1 in r && currentId + 1 in r
    ensures forall id :: id in r ==> currentId - 1 <= id <= currentId + 1
    ensures |r| == MaxCachedPlayers
  {
    {currentId - 1, currentId, currentId + 1}
  }

  lemma {:induction false} SubsetCardinality<T>(a: set<T>, b: set<T>)
    requires a <= b
    ensures |a| <= |b|
    decreases |b|
  {
    if a != {} {
      var x := Member(a);
      assert a - {x} <= b - {x};
      SubsetCardinality(a - {x}, b - {x});
    }
  }

  /**
   * The resident ids after `cleanupIfNeeded(currentId)`: unchanged up to the
   * cap, and otherwise only those inside the window, so never more than the cap.
   */
  function Retained(resident: set<int>, currentId: int): (r: set<int>)
    ensures r <= resident
    ensures |resident| > MaxCachedPlayers ==> |r| <= MaxCachedPlayers
    ensures |resident| <= MaxCachedPlayers ==> r == resident
    ensures currentId in resident ==> currentId in r
    ensures forall id :: id in resident && id !in r <==> |resident| > MaxCachedPlayers && id in resident && id !in RetentionWindow(currentId)
  {
    if |resident| > MaxCachedPlayers then
      SubsetCardinality(resident * RetentionWindow(currentId), RetentionWindow(currentId));
      resident * RetentionWindow(currentId)
    else resident
  }

  /** The manager's state: the three dictionaries, the current id, and the serial the next player gets. */
  datatype Pool = Pool(
    players: map<int, AVPlayer>,
    playerItems: map<int, PlayerItem>,
    loopObservers: map<int, LoopObserver>,
    currentlyPlayingId: Option<int>,
    nextSerial: nat)

  const EmptyPool := Pool(map[], map[], map[], None, 0)

  // ---------------------------------------------------------------------
  // The bookkeeping every operation keeps

  /** The three maps share one key set. */
  ghost predicate KeysAgree(p: Pool) {
    p.players.Keys == p.playerItems.Keys == p.loopObservers.Keys
  }

  /** Each resident player holds its id's item, is looped by its id's observer, and was created by the manager. */
  ghost predicate EntriesWired(p: Pool)
    requires KeysAgree(p)
  {
    forall id :: id in p.players ==>
      && p.players[id].currentItem == Some(p.playerItems[id])
      && p.loopObservers[id] == LoopObserver(p.players[id].serial, p.playerItems[id])
      && p.players[id].serial < p.nextSerial
  }

  /** One player object per id. */
  ghost predicate Distinct(p: Pool) {
    forall a, b :: a in p.players && b in p.players && a != b ==> p.players[a].serial != p.players[b].serial
  }

  /** No resident player is playing but the current one. */
  ghost predicate PlayingIsCurrent(p: Pool) {
    forall id :: id in p.players && p.players[id].playing ==> p.currentlyPlayingId == Some(id)
  }

  ghost predicate Consistent(p: Pool) {
    KeysAgree(p) && EntriesWired(p) && Distinct(p) && PlayingIsCurrent(p)
  }

  /** `Consistent` and within the cap: what holds between the manager's public operations. */
  ghost predicate Bounded(p: Pool) {
    Consistent(p) && |p.players| <= MaxCachedPlayers
  }

  // ---------------------------------------------------------------------
  // The operations, as functions of the state

  /** `play(videoId:)`. */
  function AfterPlay(p: Pool, videoId: int): (r: Pool)
    ensures r.currentlyPlayingId == Some(videoId) && r.nextSerial == p.nextSerial
    ensures r.players.Keys == p.players.Keys && r.playerItems == p.playerItems && r.loopObservers == p.loopObservers
  {
    var current := p.currentlyPlayingId;
    var paused :=
      if current.Some? && current.value != videoId && current.value in p.players
      then p.players[current.value := p.players[current.value].(playing := false)]
      else p.players;
    var restarted :=
      if videoId in paused then paused[videoId := paused[videoId].(position := 0, playing := true)]
      else paused;
    p.(players := restarted, currentlyPlayingId := Some(videoId))
  }

  /** `pause(videoId:)`. */
  function AfterPause(p: Pool, videoId: int): (r: Pool)
    ensures r.currentlyPlayingId == if p.currentlyPlayingId == Some(videoId) then None else p.currentlyPlayingId
    ensures r.players.Keys == p.players.Keys && r.playerItems == p.playerItems && r.loopObservers == p.loopObservers
    ensures r.nextSerial == p.nextSerial
  {
    var players := if videoId in p.players then p.players[videoId := p.players[videoId].(playing := false)] else p.players;
    p.(players := players,
       currentlyPlayingId := if p.currentlyPlayingId == Some(videoId) then None else p.currentlyPlayingId)
  }

  /** `pauseAll`. */
  function AfterPauseAll(p: Pool): (r: Pool)
    ensures r.currentlyPlayingId == None && r.nextSerial == p.nextSerial
    ensures r.players.Keys == p.players.Keys && r.playerItems == p.playerItems && r.loopObservers == p.loopObservers
    ensures forall id :: id in r.players ==> !r.players[id].playing
  {
    p.(players := map id | id in p.players :: p.players[id].(playing := false), currentlyPlayingId := None)
  }

  /** The entries of `ids` removed from all three maps: what `releasePlayer(for:)` and eviction do to the maps. */
  function Without(p: Pool, ids: set<int>): (r: Pool)
    ensures r.players.Keys == p.players.Keys - ids
    ensures forall id :: id in r.players ==> r.players[id] == p.players[id]
    ensures r.playerItems.Keys == p.playerItems.Keys - ids
    ensures forall id :: id in r.playerItems ==> r.playerItems[id] == p.playerItems[id]
    ensures r.loopObservers.Keys == p.loopObservers.Keys - ids
    ensures forall id :: id in r.loopObservers ==> r.loopObservers[id] == p.loopObservers[id]
    ensures r.currentlyPlayingId == p.currentlyPlayingId && r.nextSerial == p.nextSerial
  {
    p.(players := p.players - ids, playerItems := p.playerItems - ids, loopObservers := p.loopObservers - ids)
  }

  /** `cleanupIfNeeded(currentId:)`. */
  function AfterCleanup(p: Pool, currentId: int): (r: Pool)
  {
    if |p.players| > MaxCachedPlayers then Without(p, p.players.Keys - RetentionWindow(currentId)) else p
  }

  /** Creating a player for `videoId` on `url` and registering it with its item and loop observer. */
  function Added(p: Pool, videoId: int, url: string): (r: Pool)
  {
    var player := NewPlayer(p.nextSerial, PlayerItem(url));
    Pool(p.players[videoId := player],
         p.playerItems[videoId := PlayerItem(url)],
         p.loopObservers[videoId := LoopObserver(player.serial, PlayerItem(url))],
         p.currentlyPlayingId,
         p.nextSerial + 1)
  }

  /** `player(for:url:)`: the state afterwards. */
  function AfterAcquire(p: Pool, videoId: int, url: string): (r: Pool)
  {
    if videoId in p.players then p else AfterCleanup(Added(p, videoId, url), videoId)
  }

  /** `releaseAll`. */
  function AfterReleaseAll(p: Pool): (r: Pool)
    ensures r.players == map[] && r.playerItems == map[] && r.loopObservers == map[]
    ensures r.currentlyPlayingId == None && r.nextSerial == p.nextSerial
  {
    Pool(map[], map[], map[], None, p.nextSerial)
  }

  // ---------------------------------------------------------------------
  // What the operations promise

  /** At most one resident player is playing in a consistent state. */
  lemma AtMostOnePlaying(p: Pool, a: int, b: int)
    requires PlayingIsCurrent(p)
    requires a in p.players && b in p.players && p.players[a].playing && p.players[b].playing
    ensures a == b
  {
  }

  /** The entries of the pool after `play(videoId:)`, one id at a time. */
  lemma AfterPlayEntry(p: Pool, videoId: int, id: int)
    requires id in p.players
    ensures AfterPlay(p, videoId).players[id] ==
      if id == videoId then p.players[id].(position := 0, playing := true)
      else if p.currentlyPlayingId == Some(id) then p.players[id].(playing := false)
      else p.players[id]
  {
  }

  /**
   * After `play(videoId:)` exactly the target plays (when resident), from
   * its start; every other entry is as it was, paused; the invariants hold.
   */
  lemma PlayMakesTargetSolePlayer(p: Pool, videoId: int)
    requires Bounded(p)
    ensures Bounded(AfterPlay(p, videoId))
    ensures forall id :: id in p.players ==> (AfterPlay(p, videoId).players[id].playing <==> id == videoId)
    ensures videoId in p.players ==> AfterPlay(p, videoId).players[videoId] == p.players[videoId].(position := 0, playing := true)
    ensures forall id :: id in p.players && id != videoId ==>
      AfterPlay(p, videoId).players[id] == p.players[id].(playing := false)
  {
    var r := AfterPlay(p, videoId);
    forall id | id in p.players
      ensures r.players[id].serial == p.players[id].serial
      ensures r.players[id].currentItem == p.players[id].currentItem
      ensures r.players[id].playing <==> id == videoId
      ensures id == videoId ==> r.players[id] == p.players[id].(position := 0, playing := true)
      ensures id != videoId ==> r.players[id] == p.players[id].(playing := false)
    {
      AfterPlayEntry(p, videoId, id);
      if id != videoId && p.players[id].playing {
        assert p.currentlyPlayingId == Some(id);
      }
    }
    assert KeysAgree(r);
    assert EntriesWired(r);
    assert Distinct(r);
    assert PlayingIsCurrent(r);
    assert |r.players| == |p.players| by {
      assert r.players.Keys == p.players.Keys;
    }
  }

  /**
   * `pause(videoId:)` pauses only the target and clears the current id only
   * if it was the target; the invariants hold.
   */
  lemma PauseOnlyTarget(p: Pool, videoId: int)
    requires Bounded(p)
    ensures Bounded(AfterPause(p, videoId))
    ensures videoId in p.players ==> AfterPause(p, videoId).players[videoId] == p.players[videoId].(playing := false)
    ensures forall id :: id in p.players && id != videoId ==> AfterPause(p, videoId).players[id] == p.players[id]
  {
    assert AfterPause(p, videoId).players.Keys == p.players.Keys;
  }

  /** `pauseAll` leaves nothing playing, nothing current, and keeps the invariants. */
  lemma PauseAllStopsEverything(p: Pool)
    requires Bounded(p)
    ensures Bounded(AfterPauseAll(p))
    ensures forall id :: id in p.players ==> AfterPauseAll(p).players[id] == p.players[id].(playing := false)
  {
    assert AfterPauseAll(p).players.Keys == p.players.Keys;
  }

  /** Removing entries keeps the invariants and never grows the pool. */
  lemma WithoutKeepsConsistent(p: Pool, ids: set<int>)
    requires Consistent(p)
    ensures Consistent(Without(p, ids))
    ensures |Without(p, ids).players| <= |p.players|
  {
    SubsetCardinality(Without(p, ids).players.Keys, p.players.Keys);
  }

  /** Removing `a` then `b` is removing both. */
  lemma WithoutTwice(p: Pool, a: set<int>, b: set<int>)
    ensures Without(Without(p, a), b) == Without(p, a + b)
  {
    var r := Without(Without(p, a), b);
    assert r.players == p.players - (a + b);
    assert r.playerItems == p.playerItems - (a + b);
    assert r.loopObservers == p.loopObservers - (a + b);
  }

  /**
   * Eviction leaves a consistent pool within the cap, whatever its size was:
   * the retained ids are `Retained` of the old ones, their entries are
   * untouched, and nothing else about the state changes.
   */
  lemma CleanupBounds(p: Pool, currentId: int)
    requires Consistent(p)
    ensures Bounded(AfterCleanup(p, currentId))
    ensures AfterCleanup(p, currentId).players.Keys == Retained(p.players.Keys, currentId)
    ensures forall id :: id in AfterCleanup(p, currentId).players ==> AfterCleanup(p, currentId).players[id] == p.players[id]
    ensures AfterCleanup(p, currentId).currentlyPlayingId == p.currentlyPlayingId
    ensures AfterCleanup(p, currentId).nextSerial == p.nextSerial
  {
    if |p.players| > MaxCachedPlayers {
      var window := RetentionWindow(currentId);
      WithoutKeepsConsistent(p, p.players.Keys - window);
      assert p.players.Keys - (p.players.Keys - window) == p.players.Keys * window;
    }
  }

  /** A new entry under a fresh id keeps the invariants: its serial is new and it starts paused. */
  lemma AddedKeepsConsistent(p: Pool, videoId: int, url: string)
    requires Consistent(p) && videoId !in p.players
    ensures Consistent(Added(p, videoId, url))
    ensures |Added(p, videoId, url).players| == |p.players| + 1
  {
    var r := Added(p, videoId, url);
    assert r.players.Keys == p.players.Keys + {videoId};
    forall a, b | a in r.players && b in r.players && a != b
      ensures r.players[a].serial != r.players[b].serial
    {
      if a != videoId && b != videoId {
        assert r.players[a] == p.players[a] && r.players[b] == p.players[b];
      }
    }
  }

  /**
   * `player(for:url:)`: a resident id changes nothing; otherwise the new
   * paused player is resident afterwards, the other survivors are untouched,
   * the residents are `Retained` of the old ones plus the id, and the pool
   * stays consistent and within the cap.
   */
  lemma AcquireKeepsPoolBounded(p: Pool, videoId: int, url: string)
    requires Bounded(p)
    ensures Bounded(AfterAcquire(p, videoId, url))
    ensures videoId in AfterAcquire(p, videoId, url).players
    ensures AfterAcquire(p, videoId, url).currentlyPlayingId == p.currentlyPlayingId
    ensures videoId in p.players ==> AfterAcquire(p, videoId, url) == p
    ensures videoId !in p.players ==>
      && AfterAcquire(p, videoId, url).players[videoId] == NewPlayer(p.nextSerial, PlayerItem(url))
      && AfterAcquire(p, videoId, url).players.Keys == Retained(p.players.Keys + {videoId}, videoId)
      && forall id :: id in AfterAcquire(p, videoId, url).players && id != videoId ==>
           AfterAcquire(p, videoId, url).players[id] == p.players[id]
  {
    if videoId !in p.players {
      var added := Added(p, videoId, url);
      AddedKeepsConsistent(p, videoId, url);
      CleanupBounds(added, videoId);
      assert added.players.Keys == p.players.Keys + {videoId};
    }
  }

  /**
   * The pool after scrolling forward from an empty pool through videos
   * `1..n`, acquiring and then playing each one as it becomes visible.
   */
  function Scrolled(n: nat, url: string): Pool
  {
    if n == 0 then EmptyPool else AfterPlay(AfterAcquire(Scrolled(n - 1, url), n, url), n)
  }

  /**
   * Scrolling forward keeps the visible video and the one before it
   * resident, never anything older than two back, and only the visible one
   * playing.
   */
  lemma {:induction false} ScrollingForward(n: nat, url: string)
    requires n >= 1
    ensures Bounded(Scrolled(n, url))
    ensures n in Scrolled(n, url).players && (n >= 2 ==> n - 1 in Scrolled(n, url).players)
    ensures forall id :: id in Scrolled(n, url).players ==> 1 <= id && n - 2 <= id <= n
    ensures forall id :: id in Scrolled(n, url).players ==> (Scrolled(n, url).players[id].playing <==> id == n)
  {
    var p := Scrolled(n - 1, url);
    if n == 1 {
      assert Bounded(p);
      var r := ScrollTo(p, n, url);
      assert Scrolled(n, url) == r;
      assert r.players.Keys == {1};
    } else {
      ScrollingForward(n - 1, url);
      var r := ScrollTo(p, n, url);
      assert Scrolled(n, url) == r;
      ScrollStepKeys(p.players.Keys, n);
    }
  }

  /** The resident ids after one scroll step forward, on ids alone. */
  lemma ScrollStepKeys(resident: set<int>, n: int)
    requires n - 1 in resident && (n >= 3 ==> n - 2 in resident)
    requires forall id :: id in resident ==> 1 <= id && n - 3 <= id <= n - 1
    ensures n in Retained(resident + {n}, n) && n - 1 in Retained(resident + {n}, n)
    ensures forall id :: id in Retained(resident + {n}, n) ==> 1 <= id && n - 2 <= id <= n
  {
    var grown := resident + {n};
    if n - 3 in resident {
      assert {n - 3, n - 2, n - 1} <= resident;
      SubsetCardinality({n - 3, n - 2, n - 1}, resident);
      assert |grown| == |resident| + 1;
    }
  }

  /** One scroll step: the newly visible video is acquired and played. */
  lemma ScrollTo(p: Pool, videoId: int, url: string) returns (r: Pool)
    requires Bounded(p) && videoId !in p.players
    ensures r == AfterPlay(AfterAcquire(p, videoId, url), videoId)
    ensures Bounded(r)
    ensures r.players.Keys == Retained(p.players.Keys + {videoId}, videoId)
    ensures forall id :: id in r.players ==> (r.players[id].playing <==> id == videoId)
  {
    var acquired := AfterAcquire(p, videoId, url);
    AcquireKeepsPoolBounded(p, videoId, url);
    r := AfterPlay(acquired, videoId);
    PlayMakesTargetSolePlayer(acquired, videoId);
  }

  // ---------------------------------------------------------------------
  // The manager

  class VideoPlayerManager {
    var players: map<int, AVPlayer>
    var playerItems: map<int, PlayerItem>
    var loopObservers: map<int, LoopObserver>
    var currentlyPlayingId: Option<int>
    /** The serial the next player created gets. */
    var nextSerial: nat
    /** The players removed so far, in the state they were removed in. */
    ghost var released: set<AVPlayer>

    function State(): Pool
      reads this
    {
      Pool(players, playerItems, loopObservers, currentlyPlayingId, nextSerial)
    }

    /** Every released player was paused and detached from its item before it was dropped. */
    ghost predicate ReleasedAreDetached()
      reads this
    {
      forall player :: player in released ==> !player.playing && player.currentItem == None
    }

    ghost predicate Valid()
      reads this
    {
      Bounded(State()) && ReleasedAreDetached()
    }

    constructor ()
      ensures Valid() && State() == EmptyPool && released == {}
    {
      players := map[];
      playerItems := map[];
      loopObservers := map[];
      currentlyPlayingId := None;
      nextSerial := 0;
      released := {};
    }

    /**
     * `player(for:url:)`: the resident player, with nothing changed; or a new
     * paused player on `url`, registered in all three maps before eviction
     * runs around `videoId`.
     */
    method PlayerFor(videoId: int, url: string) returns (player: AVPlayer)
      requires Valid()
      modifies this
      ensures Valid()
      ensures State() == AfterAcquire(old(State()), videoId, url)
      ensures player == players[videoId]
      ensures forall id :: id in old(players) && id !in players ==> Detached(old(players[id])) in released
    {
      if videoId in players {
        return players[videoId];
      }
      ghost var before := State();
      var item := PlayerItem(url);
      player := NewPlayer(nextSerial, item);
      nextSerial := nextSerial + 1;
      players := players[videoId := player];
      playerItems := playerItems[videoId := item];
      SetupLooping(videoId, player);
      assert State() == Added(before, videoId, url);
      AddedKeepsConsistent(before, videoId, url);
      CleanupIfNeeded(videoId);
      AcquireKeepsPoolBounded(before, videoId, url);
    }

    /** `setupLooping(for:player:)`: the id's observer is replaced by one for this player and its item. */
    method SetupLooping(videoId: int, player: AVPlayer)
      requires player.currentItem.Some?
      modifies this
      ensures loopObservers == old(loopObservers)[videoId := LoopObserver(player.serial, player.currentItem.value)]
      ensures players == old(players) && playerItems == old(playerItems)
      ensures currentlyPlayingId == old(currentlyPlayingId) && nextSerial == old(nextSerial)
      ensures released == old(released)
    {
      loopObservers := loopObservers[videoId := LoopObserver(player.serial, player.currentItem.value)];
    }

    /**
     * `cleanupIfNeeded(currentId:)`: above the cap, every resident id outside
     * the window around `currentId` is evicted; entries inside the window are
     * untouched.
     */
    method CleanupIfNeeded(currentId: int)
      requires Consistent(State()) && ReleasedAreDetached()
      modifies this
      ensures Valid()
      ensures State() == AfterCleanup(old(State()), currentId)
      ensures forall id :: id in old(players) && id !in players ==> Detached(old(players[id])) in released
    {
      ghost var before := State();
      if |players| > MaxCachedPlayers {
        EvictOutside(RetentionWindow(currentId));
      }
      CleanupBounds(before, currentId);
    }

    /** The loop of `cleanupIfNeeded(currentId:)`: every resident id outside `idsToKeep` is evicted. */
    method EvictOutside(idsToKeep: set<int>)
      requires ReleasedAreDetached()
      modifies this
      ensures ReleasedAreDetached()
      ensures State() == Without(old(State()), old(players).Keys - idsToKeep)
      ensures forall id :: id in old(players) && id !in players ==> Detached(old(players[id])) in released
    {
      var toVisit := players.Keys;
      while toVisit != {}
        invariant toVisit <= old(players).Keys
        invariant State() == Without(old(State()), old(players).Keys - toVisit - idsToKeep)
        invariant ReleasedAreDetached()
        invariant forall id :: id in old(players) && id !in players ==> Detached(old(players)[id]) in released
        decreases toVisit
      {
        ghost var someId := Member(toVisit);
        var id :| id in toVisit;
        if id !in idsToKeep {
          Evict(id);
          WithoutTwice(old(State()), old(players).Keys - toVisit - idsToKeep, {id});
          assert old(players).Keys - toVisit - idsToKeep + {id} == old(players).Keys - (toVisit - {id}) - idsToKeep;
        } else {
          assert old(players).Keys - toVisit - idsToKeep == old(players).Keys - (toVisit - {id}) - idsToKeep;
        }
        toVisit := toVisit - {id};
      }
      assert old(players).Keys - {} - idsToKeep == old(players).Keys - idsToKeep;
    }

    /**
     * One eviction, the body of `releasePlayer(for:)` and of the loop in
     * `cleanupIfNeeded(currentId:)`: the player is paused, detached and
     * removed from all three maps.
     */
    method Evict(videoId: int)
      requires ReleasedAreDetached()
      modifies this
      ensures ReleasedAreDetached()
      ensures State() == Without(old(State()), {videoId})
      ensures released == old(released) + if videoId in old(players) then {Detached(old(players[videoId]))} else {}
    {
      if videoId in players {
        var player := players[videoId];
        player := player.(playing := false);
        player := player.(currentItem := None);
        released := released + {player};
      }
      players := players - {videoId};
      playerItems := playerItems - {videoId};
      loopObservers := loopObservers - {videoId};
    }

    /**
     * `play(videoId:)`: the previous current player is paused if it is another
     * one, this id's player (when resident) restarts from zero and plays, and
     * the id becomes current even when it is not resident.
     */
    method Play(videoId: int)
      requires Valid()
      modifies this
      ensures Valid() && released == old(released)
      ensures State() == AfterPlay(old(State()), videoId)
    {
      ghost var before := State();
      if currentlyPlayingId.Some? && currentlyPlayingId.value != videoId && currentlyPlayingId.value in players {
        var currentId := currentlyPlayingId.value;
        players := players[currentId := players[currentId].(playing := false)];
      }
      if videoId in players {
        players := players[videoId := players[videoId].(position := 0, playing := true)];
      }
      currentlyPlayingId := Some(videoId);
      assert State() == AfterPlay(before, videoId);
      PlayMakesTargetSolePlayer(before, videoId);
    }

    /** `pause(videoId:)`: only this id's player is paused; it stops being current if it was. */
    method Pause(videoId: int)
      requires Valid()
      modifies this
      ensures Valid() && released == old(released)
      ensures State() == AfterPause(old(State()), videoId)
    {
      ghost var before := State();
      if videoId in players {
        players := players[videoId := players[videoId].(playing := false)];
      }
      if currentlyPlayingId == Some(videoId) {
        currentlyPlayingId := None;
      }
      assert State() == AfterPause(before, videoId);
      PauseOnlyTarget(before, videoId);
    }

    /** `pauseAll`: every resident player is paused and nothing is current. */
    method PauseAll()
      requires Valid()
      modifies this
      ensures Valid() && released == old(released)
      ensures State() == AfterPauseAll(old(State()))
      ensures forall id :: id in players ==> players[id] == old(players[id]).(playing := false)
    {
      ghost var before := State();
      PauseEach();
      currentlyPlayingId := None;
      assert players.Keys == AfterPauseAll(before).players.Keys;
      assert forall id :: id in players ==> players[id] == AfterPauseAll(before).players[id];
      assert players == AfterPauseAll(before).players;
      assert State() == AfterPauseAll(before);
      PauseAllStopsEverything(before);
    }

    /** `players.values.forEach { $0.pause() }`. */
    method PauseEach()
      modifies this
      ensures players.Keys == old(players).Keys
      ensures forall id :: id in players ==> players[id] == old(players)[id].(playing := false)
      ensures playerItems == old(playerItems) && loopObservers == old(loopObservers) && released == old(released)
      ensures currentlyPlayingId == old(currentlyPlayingId) && nextSerial == old(nextSerial)
    {
      var toVisit := players.Keys;
      while toVisit != {}
        invariant toVisit <= players.Keys == old(players.Keys)
        invariant playerItems == old(playerItems) && loopObservers == old(loopObservers) && released == old(released)
        invariant currentlyPlayingId == old(currentlyPlayingId) && nextSerial == old(nextSerial)
        invariant forall id :: id in players && id !in toVisit ==> players[id] == old(players[id]).(playing := false)
        invariant forall id :: id in toVisit ==> players[id] == old(players[id])
        decreases toVisit
      {
        ghost var someId := Member(toVisit);
        var id :| id in toVisit;
        players := players[id := players[id].(playing := false)];
        toVisit := toVisit - {id};
      }
    }

    /**
     * `releasePlayer(for:)`: this id's player is paused, detached and removed
     * from all three maps; the current id is left as it was.
     */
    method ReleasePlayer(videoId: int)
      requires Valid()
      modifies this
      ensures Valid()
      ensures State() == Without(old(State()), {videoId})
      ensures videoId in old(players) ==> Detached(old(players[videoId])) in released
    {
      ghost var before := State();
      Evict(videoId);
      WithoutKeepsConsistent(before, {videoId});
    }

    /** `releaseAll`: every player is paused and detached, all three maps are emptied, nothing is current. */
    method ReleaseAll()
      requires Valid()
      modifies this
      ensures Valid()
      ensures State() == AfterReleaseAll(old(State()))
      ensures forall id :: id in old(players) ==> Detached(old(players[id])) in released
    {
      ghost var before := players;
      PauseAll();
      assert forall id :: id in players ==> players[id] == before[id].(playing := false);
      DetachEach();
      assert forall id :: id in players ==> players[id] == Detached(before[id]);
      RecordReleased();
      assert forall id :: id in before ==> Detached(before[id]) in released;
      players := map[];
      playerItems := map[];
      loopObservers := map[];
      assert Bounded(State());
    }

    /** Records the resident players, all paused and detached, as released. */
    ghost method RecordReleased()
      requires ReleasedAreDetached()
      requires forall id :: id in players ==> !players[id].playing && players[id].currentItem == None
      modifies this
      ensures ReleasedAreDetached()
      ensures forall id :: id in players ==> players[id] in released
      ensures State() == old(State())
    {
      released := released + set id | id in players :: players[id];
    }

    /** `players.values.forEach { $0.replaceCurrentItem(with: nil) }`. */
    method DetachEach()
      modifies this
      ensures players.Keys == old(players).Keys
      ensures forall id :: id in players ==> players[id] == old(players)[id].(currentItem := None)
      ensures playerItems == old(playerItems) && loopObservers == old(loopObservers) && released == old(released)
      ensures currentlyPlayingId == old(currentlyPlayingId) && nextSerial == old(nextSerial)
    {
      var toVisit := players.Keys;
      while toVisit != {}
        invariant toVisit <= players.Keys == old(players.Keys)
        invariant playerItems == old(playerItems) && loopObservers == old(loopObservers) && released == old(released)
        invariant currentlyPlayingId == old(currentlyPlayingId) && nextSerial == old(nextSerial)
        invariant forall id :: id in players && id !in toVisit ==> players[id] == old(players[id]).(currentItem := None)
        invariant forall id :: id in toVisit ==> players[id] == old(players[id])
        decreases toVisit
      {
        ghost var someId := Member(toVisit);
        var id :| id in toVisit;
        players := players[id := players[id].(currentItem := None)];
        toVisit := toVisit - {id};
      }
    }

    /**
     * The synchronous part of `preload(videoId:url:)`: nothing is scheduled
     * for a resident id; otherwise the asset load is scheduled. Nothing
     * changes either way.
     */
    method Preload(videoId: int, url: string) returns (scheduled: bool)
      ensures scheduled <==> videoId !in players
    {
      scheduled := videoId !in players;
    }

    /** The completion of a scheduled preload: `player(for:url:)`, its result discarded. */
    method CompletePreload(videoId: int, url: string)
      requires Valid()
      modifies this
      ensures Valid()
      ensures State() == AfterAcquire(old(State()), videoId, url)
    {
      var _ := PlayerFor(videoId, url);
    }
  }
}
