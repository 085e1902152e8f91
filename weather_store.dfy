/**
 * The Pinia store `weather` (src/stores/weather.js): the latest fetched
 * weather, forecast and alerts, the loading flag, the last error, and the list
 * of favorite locations, which is written through to browser storage under a
 * single key.
 */
module WeatherStore {
  import opened Wrappers

  type LocationId = string

  /** A favorite location: its provider-assigned id and an opaque payload. */
  datatype Location<P> = Location(id: LocationId, payload: P)

  /**
   * What browser storage can hold under a key, as `loadFavorites` sees it
   * through `JSON.parse`.
   */
  datatype Blob<P> =
    | Encoded(locations: seq<Location<P>>)  // the text `JSON.stringify` made of a favorites list
    | Blank                                 // the empty string, which `if (savedFavorites)` treats as absent
    | Unparsable                            // text on which `JSON.parse` throws

  /** The error `loadFavorites` throws on a corrupt stored value. */
  datatype StoreError = PersistenceCorrupt

  /** The one storage key the store reads and writes. */
  const FavoritesKey: string := "weatherFavorites"

  /** Reference definition: some entry of `fs` has identifier `id`. */
  ghost predicate Listed<P>(fs: seq<Location<P>>, id: LocationId) {
    exists i :: 0 <= i < |fs| && fs[i].id == id
  }

  /** No two entries of `fs` share an identifier. */
  ghost predicate DistinctIds<P>(fs: seq<Location<P>>) {
    forall i, j :: 0 <= i < j < |fs| ==> fs[i].id != fs[j].id
  }

  /** `fs.some(fav => fav.id === id)`, scanning from the front. */
  function SomeHasId<P>(fs: seq<Location<P>>, id: LocationId): (b: bool)
    ensures b <==> Listed(fs, id)
  {
    if fs == [] then false
    else if fs[0].id == id then true
    else
      var rest := SomeHasId(fs[1..], id);
      assert Listed(fs[1..], id) ==> Listed(fs, id) by {
        if Listed(fs[1..], id) {
          var i :| 0 <= i < |fs[1..]| && fs[1..][i].id == id;
          assert fs[i + 1].id == id;
        }
      }
      assert Listed(fs, id) ==> Listed(fs[1..], id) by {
        if Listed(fs, id) {
          var i :| 0 <= i < |fs| && fs[i].id == id;
          assert i != 0 && fs[1..][i - 1].id == id;
        }
      }
      rest
  }

  /** `fs.filter(fav => fav.id !== id)`. */
  function Filtered<P>(fs: seq<Location<P>>, id: LocationId): (r: seq<Location<P>>)
    ensures |r| <= |fs|
    ensures forall k :: 0 <= k < |r| ==> r[k].id != id
    ensures forall k :: 0 <= k < |r| ==> r[k] in fs
    ensures forall k :: 0 <= k < |fs| && fs[k].id != id ==> fs[k] in r
  {
    if fs == [] then []
    else
      var rest := Filtered(fs[1..], id);
      assert forall k :: 1 <= k < |fs| ==> fs[k] == fs[1..][k - 1];
      if fs[0].id == id then rest else [fs[0]] + rest
  }

  /** Filtering drops every copy of the entries with the identifier and keeps every copy of the others. */
  lemma {:induction false} FilteredMultiset<P>(fs: seq<Location<P>>, id: LocationId)
    ensures forall x :: multiset(Filtered(fs, id))[x] == if x.id == id then 0 else multiset(fs)[x]
  {
    if fs != [] {
      FilteredMultiset(fs[1..], id);
      assert fs == [fs[0]] + fs[1..];
      assert multiset(fs) == multiset([fs[0]]) + multiset(fs[1..]);
    }
  }

  /** Filtering out an identifier that no entry has changes nothing. */
  lemma {:induction false} FilteredUnmatched<P>(fs: seq<Location<P>>, id: LocationId)
    requires !Listed(fs, id)
    ensures Filtered(fs, id) == fs
  {
    if fs != [] {
      assert fs[0].id != id;
      FilteredUnmatched(fs[1..], id);
      assert fs == [fs[0]] + fs[1..];
    }
  }

  /** Filtering distributes over concatenation: it keeps the relative order of what it keeps. */
  lemma {:induction false} FilteredAppend<P>(a: seq<Location<P>>, b: seq<Location<P>>, id: LocationId)
    ensures Filtered(a + b, id) == Filtered(a, id) + Filtered(b, id)
  {
    if a == [] {
      assert a + b == b;
    } else {
      assert (a + b)[0] == a[0];
      assert (a + b)[1..] == a[1..] + b;
      FilteredAppend(a[1..], b, id);
    }
  }

  /** Filtering a list with distinct identifiers leaves them distinct. */
  lemma {:induction false} FilteredKeepsDistinct<P>(fs: seq<Location<P>>, id: LocationId)
    requires DistinctIds(fs)
    ensures DistinctIds(Filtered(fs, id))
  {
    if fs != [] {
      var tail := fs[1..];
      assert DistinctIds(tail) by {
        forall i, j | 0 <= i < j < |tail| ensures tail[i].id != tail[j].id {
          assert tail[i] == fs[i + 1] && tail[j] == fs[j + 1];
        }
      }
      FilteredKeepsDistinct(tail, id);
      var rest := Filtered(tail, id);
      if fs[0].id != id {
        forall k | 0 <= k < |rest| ensures rest[k].id != fs[0].id {
          assert rest[k] in tail;
          var j :| 0 <= j < |tail| && tail[j] == rest[k];
          assert fs[j + 1] == rest[k];
        }
        var r := [fs[0]] + rest;
        forall i, j | 0 <= i < j < |r| ensures r[i].id != r[j].id {
          if i == 0 {
            assert r[j] == rest[j - 1];
          } else {
            assert r[i] == rest[i - 1] && r[j] == rest[j - 1];
          }
        }
      }
    }
  }

  /** Appending a location whose identifier is new keeps the identifiers distinct. */
  lemma AppendKeepsDistinct<P>(fs: seq<Location<P>>, l: Location<P>)
    requires DistinctIds(fs) && !Listed(fs, l.id)
    ensures DistinctIds(fs + [l])
  {
  }

  /** Removing the identifier of a location just appended gives back the list before the append. */
  lemma {:induction false} AddThenRemove<P>(fs: seq<Location<P>>, l: Location<P>)
    requires !Listed(fs, l.id)
    ensures Filtered(fs + [l], l.id) == fs
  {
    FilteredAppend(fs, [l], l.id);
    FilteredUnmatched(fs, l.id);
    assert [l][1..] == [];
    assert fs + [] == fs;
  }

  /** The store's state record, as one value. */
  datatype State<W, F, A, E, P> = State(
    currentWeather: Option<W>,
    forecast: Option<F>,
    alerts: seq<A>,
    favorites: seq<Location<P>>,
    isLoading: bool,
    error: Option<E>)

  /**
   * The store. W, F, A, E and P are the opaque payloads of a weather
   * snapshot, a forecast, an alert, an error and a location.
   */
  class Store<W, F, A, E, P> {
    var currentWeather: Option<W>
    var forecast: Option<F>
    var alerts: seq<A>
    var favorites: seq<Location<P>>
    var isLoading: bool
    var error: Option<E>
    /** The browser's local storage, as far as this store uses it. */
    var storage: map<string, Blob<P>>

    /** The state record `state()` describes, read from the fields. */
    ghost function Snapshot(): State<W, F, A, E, P>
      reads this
    {
      State(currentWeather, forecast, alerts, favorites, isLoading, error)
    }

    /** Write-through discipline: storage holds exactly the in-memory favorites. */
    ghost predicate Persisted()
      reads this
    {
      FavoritesKey in storage && storage[FavoritesKey] == Encoded(favorites)
    }

    /** The initial state; `storage` is whatever the browser holds at startup. */
    constructor (storage: map<string, Blob<P>>)
      ensures Snapshot() == State(None, None, [], [], false, None)
      ensures this.storage == storage
    {
      currentWeather := None;
      forecast := None;
      alerts := [];
      favorites := [];
      isLoading := false;
      error := None;
      this.storage := storage;
    }

    method SetCurrentWeather(weather: Option<W>)
      modifies this
      ensures Snapshot() == old(Snapshot()).(currentWeather := weather)
      ensures storage == old(storage)
    {
      currentWeather := weather;
    }

    method SetForecast(forecast: Option<F>)
      modifies this
      ensures Snapshot() == old(Snapshot()).(forecast := forecast)
      ensures storage == old(storage)
    {
      this.forecast := forecast;
    }

    method SetAlerts(alerts: seq<A>)
      modifies this
      ensures Snapshot() == old(Snapshot()).(alerts := alerts)
      ensures storage == old(storage)
    {
      this.alerts := alerts;
    }

    method SetLoading(loading: bool)
      modifies this
      ensures Snapshot() == old(Snapshot()).(isLoading := loading)
      ensures storage == old(storage)
    {
      isLoading := loading;
    }

    method SetError(error: Option<E>)
      modifies this
      ensures Snapshot() == old(Snapshot()).(error := error)
      ensures storage == old(storage)
    {
      this.error := error;
    }

    /** The getter `isFavorite`: does some favorite have identifier `locationId`? */
    function IsFavorite(locationId: LocationId): (b: bool)
      reads this
      ensures b <==> exists i :: 0 <= i < |favorites| && favorites[i].id == locationId
    {
      SomeHasId(favorites, locationId)
    }

    /** Idempotent insert keyed on `id`, written through to storage only when it inserts. */
    method AddFavorite(location: Location<P>)
      modifies this
      ensures old(Listed(favorites, location.id)) ==>
        Snapshot() == old(Snapshot()) && storage == old(storage)
      ensures !old(Listed(favorites, location.id)) ==>
        Snapshot() == old(Snapshot()).(favorites := old(favorites) + [location]) &&
        storage == old(storage)[FavoritesKey := Encoded(favorites)]
      ensures IsFavorite(location.id)
      ensures old(DistinctIds(favorites)) ==> DistinctIds(favorites)
      ensures old(Persisted()) ==> Persisted()
    {
      var present := SomeHasId(favorites, location.id);
      if !present {
        ghost var before := favorites;
        favorites := favorites + [location];
        assert favorites[|before|].id == location.id;
        if DistinctIds(before) {
          AppendKeepsDistinct(before, location);
        }
        SaveFavorites();
      }
    }

    /** Removes every favorite with identifier `locationId`, then always writes storage. */
    method RemoveFavorite(locationId: LocationId)
      modifies this
      ensures Snapshot() == old(Snapshot()).(favorites := Filtered(old(favorites), locationId))
      ensures storage == old(storage)[FavoritesKey := Encoded(favorites)]
      ensures !IsFavorite(locationId)
      ensures old(DistinctIds(favorites)) ==> DistinctIds(favorites)
      ensures Persisted()
    {
      if DistinctIds(favorites) {
        FilteredKeepsDistinct(favorites, locationId);
      }
      favorites := Filtered(favorites, locationId);
      SaveFavorites();
    }

    /**
     * Replaces the favorites with the stored list when one is stored; a
     * corrupt stored value makes it fail and leaves everything as it was.
     */
    method LoadFavorites() returns (outcome: Outcome<StoreError>)
      modifies this
      ensures storage == old(storage)
      ensures Snapshot() == old(Snapshot()).(favorites := favorites)
      ensures outcome ==
        if FavoritesKey in storage && storage[FavoritesKey].Unparsable? then Fail(PersistenceCorrupt) else Pass
      ensures favorites ==
        if FavoritesKey in storage && storage[FavoritesKey].Encoded? then storage[FavoritesKey].locations
        else old(favorites)
    {
      outcome := Pass;
      if FavoritesKey in storage {
        match storage[FavoritesKey]
        case Encoded(locations) =>
          favorites := locations;
        case Blank =>
        case Unparsable =>
          outcome := Fail(PersistenceCorrupt);
      }
    }

    /** Overwrites the single storage key with the whole favorites list. */
    method SaveFavorites()
      modifies this
      ensures Snapshot() == old(Snapshot())
      ensures storage == old(storage)[FavoritesKey := Encoded(favorites)]
      ensures Persisted()
    {
      storage := storage[FavoritesKey := Encoded(favorites)];
    }
  }

  /**
   * Persistence round trip: whatever storage held before, saving a favorites
   * list and loading it in a fresh session (a new store over the same storage)
   * gives the same list back, without error.
   */
  method SaveThenReload<W, F, A, E, P>(storage: map<string, Blob<P>>, favorites: seq<Location<P>>)
    returns (reloaded: seq<Location<P>>, outcome: Outcome<StoreError>)
    ensures outcome == Pass
    ensures reloaded == favorites
  {
    var session := new Store<W, F, A, E, P>(storage);
    session.favorites := favorites;  // Pinia state fields are writable from outside the store
    session.SaveFavorites();
    var next := new Store<W, F, A, E, P>(session.storage);
    outcome := next.LoadFavorites();
    reloaded := next.favorites;
  }
}
