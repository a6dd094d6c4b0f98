/**
 * The dashboard of the client: the two lists it holds (`watchedItems`,
 * `watchlistItems`), how it reloads them from the tables, deletes from them,
 * moves a title from the watchlist to the watched list, and the total
 * number of episodes watched.
 *
 * The calls to the hosted tables are the `Tables` methods; whether each call
 * got through is a parameter. Calls that run concurrently in the client
 * (`Promise.all`) run here one after the other.
 */
module Dashboard {
  import opened Wrappers
  import opened Js
  import opened Store

  // -------------------------------------------------- episodes watched

  /** `item.total_episodes || 0` */
  function EpisodesOf(r: Row): int {
    OrZero(r.rec.totalEpisodes)
  }

  /** The sum of the episode counts of a list (a missing count is 0). */
  function EpisodeSum(items: seq<Row>): int
    decreases |items|
  {
    if items == [] then 0 else EpisodesOf(items[0]) + EpisodeSum(items[1..])
  }

  /**
   * The reducer `(acc, item) => acc + (item.total_episodes || 0)` folded
   * left from `acc`: it adds the episode sum of the list to `acc`.
   */
  function Reduce(acc: int, items: seq<Row>): (r: int)
    ensures r == acc + EpisodeSum(items)
    decreases |items|
  {
    if items == [] then acc else Reduce(acc + EpisodesOf(items[0]), items[1..])
  }

  /** `totalEpisodes`: the sum of the episode counts over the list, a missing count being 0. */
  function TotalEpisodes(items: seq<Row>): (r: int)
    ensures r == EpisodeSum(items)
  {
    Reduce(0, items)
  }

  lemma {:induction false} EpisodeSumAppend(a: seq<Row>, b: seq<Row>)
    ensures EpisodeSum(a + b) == EpisodeSum(a) + EpisodeSum(b)
    decreases |a|
  {
    if a == [] {
      assert a + b == b;
    } else {
      assert (a + b)[1..] == a[1..] + b;
      EpisodeSumAppend(a[1..], b);
    }
  }

  /** The sum does not depend on the order of the list. */
  lemma {:induction false} EpisodeSumReorder(a: seq<Row>, b: seq<Row>)
    requires multiset(a) == multiset(b)
    ensures EpisodeSum(a) == EpisodeSum(b)
    decreases |a|
  {
    if a == [] {
      assert |b| == |multiset(b)| == 0;
    } else {
      var i := MatchHead(a, b);
      EpisodeSumRemove(b, i);
      EpisodeSumReorder(a[1..], b[..i] + b[i + 1..]);
    }
  }

  /** The first row of a list sits somewhere in any reordering, and the rests are reorderings too. */
  lemma MatchHead(a: seq<Row>, b: seq<Row>) returns (i: nat)
    requires multiset(a) == multiset(b) && a != []
    ensures i < |b| && b[i] == a[0]
    ensures multiset(a[1..]) == multiset(b[..i] + b[i + 1..])
  {
    var x := a[0];
    assert x in b by {
      assert x in multiset(a);
    }
    i :| 0 <= i < |b| && b[i] == x;
    HeadSplit(a);
    MiddleSplit(b, i);
    var rest, l, rt := multiset(a[1..]), multiset(b[..i]), multiset(b[i + 1..]);
    forall y
      ensures rest[y] == (l + rt)[y]
    {
      assert (multiset{x} + rest)[y] == (l + multiset{x} + rt)[y];
    }
    assert rest == l + rt;
  }

  lemma HeadSplit(a: seq<Row>)
    requires a != []
    ensures multiset(a) == multiset{a[0]} + multiset(a[1..])
  {
    assert a == [a[0]] + a[1..];
  }

  lemma MiddleSplit(b: seq<Row>, i: nat)
    requires i < |b|
    ensures multiset(b) == multiset(b[..i]) + multiset{b[i]} + multiset(b[i + 1..])
    ensures multiset(b[..i] + b[i + 1..]) == multiset(b[..i]) + multiset(b[i + 1..])
  {
    assert b == b[..i] + [b[i]] + b[i + 1..];
  }

  /** Taking one row out of a list takes its count out of the sum. */
  lemma EpisodeSumRemove(b: seq<Row>, i: nat)
    requires i < |b|
    ensures EpisodeSum(b) == EpisodesOf(b[i]) + EpisodeSum(b[..i] + b[i + 1..])
  {
    var x, l, rt := b[i], b[..i], b[i + 1..];
    assert b == l + [x] + rt;
    EpisodeSumAppend(l + [x], rt);
    EpisodeSumAppend(l, [x]);
    EpisodeSumAppend(l, rt);
  }

  /**
   * Whatever order the watched list is loaded in, the total is the sum
   * over the rows of the table.
   */
  lemma TotalOfLoadedList(store: Tables)
    ensures TotalEpisodes(store.Select(WatchedItems, WatchedAt)) == EpisodeSum(store.watched)
  {
    EpisodeSumReorder(store.Select(WatchedItems, WatchedAt), store.watched);
  }

  // --------------------------------------------------------------- move

  /**
   * The row `moveToWatched` inserts: the signed-in user and the seven
   * columns it copies from the watchlist row; every enrichment column is
   * left out.
   */
  function Moved(userId: string, item: MediaRecord): (r: MediaRecord)
    ensures r.userId == userId
    ensures r.title == item.title && r.mediaType == item.mediaType && r.year == item.year
    ensures r.posterUrl == item.posterUrl && r.tmdbId == item.tmdbId
    ensures r.totalEpisodes == item.totalEpisodes && r.totalSeasons == item.totalSeasons
    ensures r.description == None && r.genres == None && r.rating == None && r.runtime == None
    ensures r.director == None && r.language == None && r.releaseDate == None
    ensures r.budget == None && r.revenue == None && r.mainCast == None && r.tvStatus == None
  {
    MediaRecord(
      userId := userId,
      title := item.title,
      mediaType := item.mediaType,
      year := item.year,
      posterUrl := item.posterUrl,
      totalEpisodes := item.totalEpisodes,
      totalSeasons := item.totalSeasons,
      tmdbId := item.tmdbId,
      description := None,
      genres := None,
      rating := None,
      runtime := None,
      director := None,
      language := None,
      releaseDate := None,
      budget := None,
      revenue := None,
      mainCast := None,
      tvStatus := None)
  }

  // -------------------------------------------------------- the board

  class Board {
    const userId: string
    const store: Tables
    var watchedItems: seq<Row>
    var watchlistItems: seq<Row>
    var loading: bool

    constructor (userId: string, store: Tables)
      ensures this.userId == userId && this.store == store
      ensures watchedItems == [] && watchlistItems == [] && loading
    {
      this.userId, this.store := userId, store;
      watchedItems, watchlistItems, loading := [], [], true;
    }

    /** `loadWatchedItems`: latest watched first; a failed load keeps the list held. */
    method LoadWatchedItems(reached: bool)
      modifies this`watchedItems
      ensures watchedItems == if reached then store.Select(WatchedItems, WatchedAt) else old(watchedItems)
    {
      if reached {
        watchedItems := store.Select(WatchedItems, WatchedAt);
      }
    }

    /** `loadWatchlistItems`: latest added first; a failed load keeps the list held. */
    method LoadWatchlistItems(reached: bool)
      modifies this`watchlistItems
      ensures watchlistItems == if reached then store.Select(WatchlistItems, CreatedAt) else old(watchlistItems)
    {
      if reached {
        watchlistItems := store.Select(WatchlistItems, CreatedAt);
      }
    }

    /** `loadData`: both lists, then `loading` off. */
    method LoadData(watchedReached: bool, watchlistReached: bool)
      modifies this`watchedItems, this`watchlistItems, this`loading
      ensures watchedItems == if watchedReached then store.Select(WatchedItems, WatchedAt) else old(watchedItems)
      ensures watchlistItems == if watchlistReached then store.Select(WatchlistItems, CreatedAt) else old(watchlistItems)
      ensures !loading
    {
      loading := true;
      LoadWatchedItems(watchedReached);
      LoadWatchlistItems(watchlistReached);
      loading := false;
    }

    /** `deleteWatchedItem`: only watched rows with that id go, and only the watched list is reloaded. */
    method DeleteWatchedItem(id: string, deleteReached: bool, reloadReached: bool)
      requires store.Valid()
      modifies store, this`watchedItems
      ensures store.Valid()
      ensures store.watched == if deleteReached then Without(old(store.watched), id) else old(store.watched)
      ensures store.watchlist == old(store.watchlist)
      ensures watchedItems == if reloadReached then store.Select(WatchedItems, WatchedAt) else old(watchedItems)
    {
      store.Delete(WatchedItems, id, deleteReached);
      LoadWatchedItems(reloadReached);
    }

    /** `deleteWatchlistItem`: only watchlist rows with that id go, and only the watchlist is reloaded. */
    method DeleteWatchlistItem(id: string, deleteReached: bool, reloadReached: bool)
      requires store.Valid()
      modifies store, this`watchlistItems
      ensures store.Valid()
      ensures store.watchlist == if deleteReached then Without(old(store.watchlist), id) else old(store.watchlist)
      ensures store.watched == old(store.watched)
      ensures watchlistItems == if reloadReached then store.Select(WatchlistItems, CreatedAt) else old(watchlistItems)
    {
      store.Delete(WatchlistItems, id, deleteReached);
      LoadWatchlistItems(reloadReached);
    }

    /**
     * `moveToWatched`: delete the watchlist row, then insert the reduced
     * copy into the watched table whatever the delete did, then reload both
     * lists. The two steps are not one transaction.
     */
    method MoveToWatched(item: Row, deleteReached: bool, fault: Option<string>, id: string, now: int,
                         watchedReached: bool, watchlistReached: bool)
      returns (insertError: Option<string>)
      requires store.Valid()
      modifies store, this`watchedItems, this`watchlistItems, this`loading
      ensures store.Valid()
      ensures store.watchlist == if deleteReached then Without(old(store.watchlist), item.id) else old(store.watchlist)
      ensures insertError == InsertError(old(store.watched), Moved(userId, item.rec), fault)
      ensures store.watched == if insertError.None?
                               then old(store.watched) + [NewRow(WatchedItems, Moved(userId, item.rec), id, now)]
                               else old(store.watched)
      ensures watchedItems == if watchedReached then store.Select(WatchedItems, WatchedAt) else old(watchedItems)
      ensures watchlistItems == if watchlistReached then store.Select(WatchlistItems, CreatedAt) else old(watchlistItems)
      ensures !loading
    {
      store.Delete(WatchlistItems, item.id, deleteReached);
      insertError := store.Insert(WatchedItems, Moved(userId, item.rec), id, now, fault);
      LoadData(watchedReached, watchlistReached);
    }
  }

  /**
   * The move is not atomic. When the delete went through and the insert
   * failed for a reason other than the constraint, the title is in neither
   * table afterwards. When the constraint rejected the insert, the watched
   * table already held the title, so nothing is lost.
   */
  lemma MoveOutcomes(watched: seq<Row>, watchlist: seq<Row>, item: Row, userId: string, fault: Option<string>)
    requires KeysUnique(watchlist) && item in watchlist
    requires item.rec.userId == userId && item.rec.tmdbId.Some?
    ensures fault.None? && InsertError(watched, Moved(userId, item.rec), fault) == Some(UniqueViolation)
            ==> Clashes(watched, item.rec)
    ensures fault.Some? && !Clashes(watched, item.rec)
            ==> InsertError(watched, Moved(userId, item.rec), fault).Some?
                && !Clashes(Without(watchlist, item.id), item.rec)
  {
    var moved := Moved(userId, item.rec);
    forall r: Row ensures SameTitle(r.rec, moved) <==> SameTitle(r.rec, item.rec) {
    }
    var j :| 0 <= j < |watchlist| && watchlist[j] == item;
    var kept := Without(watchlist, item.id);
    forall k | 0 <= k < |kept| ensures !SameTitle(kept[k].rec, item.rec) {
      var r := kept[k];
      assert r in kept;
      var i :| 0 <= i < |watchlist| && watchlist[i] == r;
      assert i != j;
      if i < j {
        assert !SameTitle(watchlist[i].rec, watchlist[j].rec);
      } else {
        assert !SameTitle(watchlist[j].rec, watchlist[i].rec);
      }
    }
  }
}
