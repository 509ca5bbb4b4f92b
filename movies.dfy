/**
 * The favorites and watchlist of scripts/movies.js (`MovieManager`): two lists
 * of movie identifiers used as sets, each mirrored into the device's
 * key/value store under its own key after every change.
 */
module Movies {
  import opened Seqs

  const FavoritesKey: string := "movieFavorites"
  const WatchlistKey: string := "movieWatchlist"

  /** The device's key/value store (`localStorage`), holding one identifier list per key. */
  class KeyValueStore {
    var entries: map<string, seq<int>>

    constructor (initial: map<string, seq<int>>)
      ensures entries == initial
    {
      entries := initial;
    }

    /** `setItem`: the key now holds the value; every other key is unchanged. */
    method SetItem(key: string, value: seq<int>)
      modifies this
      ensures entries == old(entries)[key := value]
    {
      entries := entries[key := value];
    }
  }

  /** `JSON.parse(localStorage.getItem(key)) || []`: the list stored under the key, or the empty list when there is none. */
  function StoredList(entries: map<string, seq<int>>, key: string): seq<int>
  {
    if key in entries then entries[key] else []
  }

  /** The list after inserting `id`: unchanged when it is already present, otherwise `id` appended at the end. */
  function Insert(list: seq<int>, id: int): (r: seq<int>)
    ensures id in r
    ensures forall y :: y in r <==> y in list || y == id
    ensures id in list ==> r == list
    ensures id !in list ==> |r| == |list| + 1 && r[..|list|] == list && r[|list|] == id
  {
    if id in list then list else list + [id]
  }

  /** Inserting keeps a duplicate-free list duplicate-free, and inserting twice is inserting once. */
  lemma InsertSpec(list: seq<int>, id: int)
    ensures NoDuplicates(list) ==> NoDuplicates(Insert(list, id))
    ensures Insert(Insert(list, id), id) == Insert(list, id)
    ensures NoDuplicates(list) ==> multiset(Insert(list, id))[id] == 1
  {
    if NoDuplicates(list) && id !in list {
      AppendFresh(list, id);
    }
    if NoDuplicates(list) {
      OccursOnce(Insert(list, id), id);
    }
  }

  /** In a duplicate-free list an element that is present occurs exactly once. */
  lemma {:induction false} OccursOnce(list: seq<int>, id: int)
    requires NoDuplicates(list) && id in list
    ensures multiset(list)[id] == 1
  {
    assert list == [list[0]] + list[1..];
    assert NoDuplicates(list[1..]) by {
      forall i, j | 0 <= i < j < |list[1..]| ensures list[1..][i] != list[1..][j] {
        assert list[1..][i] == list[i + 1] && list[1..][j] == list[j + 1];
      }
    }
    assert list[0] !in list[1..] by {
      forall k | 0 <= k < |list[1..]| ensures list[1..][k] != list[0] {
        assert list[1..][k] == list[k + 1];
      }
    }
    if list[0] != id {
      OccursOnce(list[1..], id);
    }
  }

  /**
   * Removing an identifier that was inserted into a list not holding it gives
   * back the original list; removing an absent identifier changes nothing.
   */
  lemma RemoveUndoesInsert(list: seq<int>, id: int)
    requires id !in list
    ensures Without(Insert(list, id), id) == list
    ensures Without(list, id) == list
  {
    WithoutAbsent(list, id);
    FilterAppendRejected(list, id);
  }

  lemma {:induction false} FilterAppendRejected(list: seq<int>, id: int)
    requires id !in list
    ensures Without(list + [id], id) == list
  {
    if list == [] {
    } else {
      FilterAppendRejected(list[1..], id);
      assert (list + [id])[1..] == list[1..] + [id];
      WithoutAbsent(list, id);
    }
  }

  /** The favorites and watchlist of one session, and the store they are saved to. */
  class MovieManager {
    var favorites: seq<int>
    var watchlist: seq<int>
    const store: KeyValueStore

    /** A reload would read back exactly the lists held in memory. */
    ghost predicate Persisted()
      reads this, store
    {
      StoredList(store.entries, FavoritesKey) == favorites
      && StoredList(store.entries, WatchlistKey) == watchlist
    }

    /** Both lists are loaded from the store, an absent key giving the empty list. */
    constructor (store: KeyValueStore)
      ensures this.store == store
      ensures favorites == StoredList(store.entries, FavoritesKey)
      ensures watchlist == StoredList(store.entries, WatchlistKey)
      ensures Persisted()
    {
      this.store := store;
      favorites := StoredList(store.entries, FavoritesKey);
      watchlist := StoredList(store.entries, WatchlistKey);
    }

    predicate IsFavorite(movieId: int)
      reads this
    {
      movieId in favorites
    }

    predicate IsInWatchlist(movieId: int)
      reads this
    {
      movieId in watchlist
    }

    method SaveFavorites()
      modifies store
      ensures store.entries == old(store.entries)[FavoritesKey := favorites]
    {
      store.SetItem(FavoritesKey, favorites);
    }

    method SaveWatchlist()
      modifies store
      ensures store.entries == old(store.entries)[WatchlistKey := watchlist]
    {
      store.SetItem(WatchlistKey, watchlist);
    }

    /**
     * A present identifier leaves the list and the store untouched; an absent
     * one is appended and the new list saved. The watchlist is unchanged.
     */
    method AddToFavorites(movieId: int)
      modifies this`favorites, store
      ensures favorites == Insert(old(favorites), movieId)
      ensures old(IsFavorite(movieId)) ==> store.entries == old(store.entries)
      ensures !old(IsFavorite(movieId)) ==> store.entries == old(store.entries)[FavoritesKey := favorites]
      ensures IsFavorite(movieId)
      ensures watchlist == old(watchlist)
      ensures StoredList(store.entries, WatchlistKey) == old(StoredList(store.entries, WatchlistKey))
      ensures old(NoDuplicates(favorites)) ==> NoDuplicates(favorites)
      ensures old(Persisted()) ==> Persisted()
    {
      if movieId !in favorites {
        if NoDuplicates(favorites) {
          AppendFresh(favorites, movieId);
        }
        favorites := favorites + [movieId];
        SaveFavorites();
      }
    }

    /** Every occurrence of the identifier is filtered out and the list is always saved. The watchlist is unchanged. */
    method RemoveFromFavorites(movieId: int)
      modifies this`favorites, store
      ensures favorites == Without(old(favorites), movieId)
      ensures store.entries == old(store.entries)[FavoritesKey := favorites]
      ensures !IsFavorite(movieId)
      ensures forall y :: y != movieId ==> (IsFavorite(y) <==> old(IsFavorite(y)))
      ensures !old(IsFavorite(movieId)) ==> favorites == old(favorites)
      ensures watchlist == old(watchlist)
      ensures StoredList(store.entries, WatchlistKey) == old(StoredList(store.entries, WatchlistKey))
      ensures old(NoDuplicates(favorites)) ==> NoDuplicates(favorites)
      ensures old(Persisted()) ==> Persisted()
    {
      WithoutSpec(favorites, movieId);
      if movieId !in favorites {
        WithoutAbsent(favorites, movieId);
      }
      favorites := Without(favorites, movieId);
      SaveFavorites();
    }

    /** The watchlist counterpart of `AddToFavorites`; the favorites are unchanged. */
    method AddToWatchlist(movieId: int)
      modifies this`watchlist, store
      ensures watchlist == Insert(old(watchlist), movieId)
      ensures old(IsInWatchlist(movieId)) ==> store.entries == old(store.entries)
      ensures !old(IsInWatchlist(movieId)) ==> store.entries == old(store.entries)[WatchlistKey := watchlist]
      ensures IsInWatchlist(movieId)
      ensures favorites == old(favorites)
      ensures StoredList(store.entries, FavoritesKey) == old(StoredList(store.entries, FavoritesKey))
      ensures old(NoDuplicates(watchlist)) ==> NoDuplicates(watchlist)
      ensures old(Persisted()) ==> Persisted()
    {
      if movieId !in watchlist {
        if NoDuplicates(watchlist) {
          AppendFresh(watchlist, movieId);
        }
        watchlist := watchlist + [movieId];
        SaveWatchlist();
      }
    }

    /** The watchlist counterpart of `RemoveFromFavorites`; the favorites are unchanged. */
    method RemoveFromWatchlist(movieId: int)
      modifies this`watchlist, store
      ensures watchlist == Without(old(watchlist), movieId)
      ensures store.entries == old(store.entries)[WatchlistKey := watchlist]
      ensures !IsInWatchlist(movieId)
      ensures forall y :: y != movieId ==> (IsInWatchlist(y) <==> old(IsInWatchlist(y)))
      ensures !old(IsInWatchlist(movieId)) ==> watchlist == old(watchlist)
      ensures favorites == old(favorites)
      ensures StoredList(store.entries, FavoritesKey) == old(StoredList(store.entries, FavoritesKey))
      ensures old(NoDuplicates(watchlist)) ==> NoDuplicates(watchlist)
      ensures old(Persisted()) ==> Persisted()
    {
      WithoutSpec(watchlist, movieId);
      if movieId !in watchlist {
        WithoutAbsent(watchlist, movieId);
      }
      watchlist := Without(watchlist, movieId);
      SaveWatchlist();
    }
  }
}
