/** The favorites provider: an ordered list of movies with distinct ids,
    toggled by id and written through to key-value storage on every change. */
module Favorites {
  import opened Js
  import opened Movies

  /** The storage key the list is kept under. */
  const StorageKey: string := "favorites"

  /** `favorites.findIndex(fav => fav.id === id)`: the position of the first
      entry carrying `id`, or -1 when there is none. */
  function FindIndex(favorites: seq<Movie>, id: int): (r: int)
    ensures -1 <= r < |favorites|
    ensures r >= 0 ==> favorites[r].id == id
    ensures r >= 0 ==> forall j :: 0 <= j < r ==> favorites[j].id != id
    ensures r == -1 <==> !HasId(favorites, id)
  {
    if |favorites| == 0 then -1
    else if favorites[0].id == id then 0
    else
      var k := FindIndex(favorites[1..], id);
      assert HasId(favorites, id) ==> HasId(favorites[1..], id) by {
        if HasId(favorites, id) {
          var i :| 0 <= i < |favorites| && favorites[i].id == id;
          assert favorites[1..][i - 1] == favorites[i];
        }
      }
      if k < 0 then -1 else k + 1
  }

  /** `favorites.some(fav => fav.id === id)`: whether the heart of an item
      with this id is drawn filled. */
  function IsFavorite(favorites: seq<Movie>, id: int): (r: bool)
    ensures r <==> HasId(favorites, id)
  {
    if |favorites| == 0 then false
    else
      assert forall i :: 1 <= i < |favorites| ==> favorites[i] == favorites[1..][i - 1];
      favorites[0].id == id || IsFavorite(favorites[1..], id)
  }

  /** The list the toggle computes: the first entry with the item's id is
      spliced out, or the item is pushed at the end when no entry has it. */
  function Toggle(favorites: seq<Movie>, movie: Movie): (r: seq<Movie>)
    ensures HasId(favorites, movie.id) ==> |r| == |favorites| - 1
    ensures !HasId(favorites, movie.id) ==> r == favorites + [movie]
  {
    var index := FindIndex(favorites, movie.id);
    if index >= 0 then favorites[..index] + favorites[index + 1..] else favorites + [movie]
  }

  /** Reference definition of removal by id: walk the list and drop the first
      entry whose id matches. */
  function RemoveFirst(favorites: seq<Movie>, id: int): seq<Movie> {
    if |favorites| == 0 then []
    else if favorites[0].id == id then favorites[1..]
    else [favorites[0]] + RemoveFirst(favorites[1..], id)
  }

  /** The reference removal is the splice at the first matching position. */
  lemma {:induction false} RemoveFirstIsSplice(favorites: seq<Movie>, id: int)
    requires HasId(favorites, id)
    ensures var k := FindIndex(favorites, id);
            RemoveFirst(favorites, id) == favorites[..k] + favorites[k + 1..]
  {
    if favorites[0].id != id {
      var tail := favorites[1..];
      var i :| 0 <= i < |favorites| && favorites[i].id == id;
      assert tail[i - 1] == favorites[i];
      RemoveFirstIsSplice(tail, id);
      var k := FindIndex(tail, id);
      assert favorites[..k + 1] == [favorites[0]] + tail[..k];
      assert favorites[k + 2..] == tail[k + 1..];
    }
  }

  /** When some entry has the item's id, toggling removes exactly the first
      such entry and keeps all the others in their original order. */
  lemma ToggleRemovesFirstMatch(favorites: seq<Movie>, movie: Movie)
    requires HasId(favorites, movie.id)
    ensures exists i :: 0 <= i < |favorites| && favorites[i].id == movie.id
              && (forall j :: 0 <= j < i ==> favorites[j].id != movie.id)
              && Toggle(favorites, movie) == favorites[..i] + favorites[i + 1..]
  {
    var k := FindIndex(favorites, movie.id);
    assert favorites[k].id == movie.id;
  }

  /** The same removal, stated against the reference definition. */
  lemma {:induction false} ToggleIsRemoveFirst(favorites: seq<Movie>, movie: Movie)
    requires HasId(favorites, movie.id)
    ensures Toggle(favorites, movie) == RemoveFirst(favorites, movie.id)
  {
    RemoveFirstIsSplice(favorites, movie.id);
  }

  /** Removal looks at the id alone: two items with the same id remove the
      same entry, whatever their other fields. */
  lemma RemovalMatchesOnlyById(favorites: seq<Movie>, a: Movie, b: Movie)
    requires a.id == b.id && HasId(favorites, a.id)
    ensures Toggle(favorites, a) == Toggle(favorites, b)
  {
  }

  /** On a list with distinct ids the toggled id changes membership. */
  lemma ToggleFlipsMembership(favorites: seq<Movie>, movie: Movie)
    requires DistinctIds(favorites)
    ensures HasId(Toggle(favorites, movie), movie.id) <==> !HasId(favorites, movie.id)
  {
    var r := Toggle(favorites, movie);
    if HasId(favorites, movie.id) {
      var k := FindIndex(favorites, movie.id);
      assert favorites[k].id == movie.id;
      forall i | 0 <= i < |r|
        ensures r[i].id != movie.id
      {
        var i' := if i < k then i else i + 1;
        assert r[i] == favorites[i'];
        assert i' != k;
      }
      assert !HasId(r, movie.id);
    } else {
      assert r[|favorites|] == movie;
      assert HasId(r, movie.id);
    }
  }

  /** Every id other than the toggled one keeps its membership. */
  lemma ToggleKeepsOtherIds(favorites: seq<Movie>, movie: Movie, id: int)
    requires id != movie.id
    ensures HasId(Toggle(favorites, movie), id) <==> HasId(favorites, id)
  {
    var r := Toggle(favorites, movie);
    if HasId(favorites, movie.id) {
      var k := FindIndex(favorites, movie.id);
      if HasId(favorites, id) {
        var i :| 0 <= i < |favorites| && favorites[i].id == id;
        assert i != k;
        if i < k {
          assert r[i] == favorites[i];
        } else {
          assert r[i - 1] == favorites[i];
        }
      }
      if HasId(r, id) {
        var i :| 0 <= i < |r| && r[i].id == id;
        if i < k {
          assert r[i] == favorites[i];
        } else {
          assert r[i] == favorites[i + 1];
        }
      }
    } else {
      if HasId(favorites, id) {
        var i :| 0 <= i < |favorites| && favorites[i].id == id;
        assert r[i] == favorites[i];
      }
      if HasId(r, id) {
        var i :| 0 <= i < |r| && r[i].id == id;
        assert i < |favorites|;
        assert r[i] == favorites[i];
      }
    }
  }

  /** Toggling keeps the ids of the list pairwise distinct. */
  lemma TogglePreservesDistinctIds(favorites: seq<Movie>, movie: Movie)
    requires DistinctIds(favorites)
    ensures DistinctIds(Toggle(favorites, movie))
  {
  }

  /** Toggling an absent item twice gives back exactly the original list. */
  lemma ToggleTwiceRestoresAbsent(favorites: seq<Movie>, movie: Movie)
    requires !HasId(favorites, movie.id)
    ensures Toggle(Toggle(favorites, movie), movie) == favorites
  {
    var once := favorites + [movie];
    assert once[|favorites|].id == movie.id;
    var k := FindIndex(once, movie.id);
    assert forall j :: 0 <= j < |favorites| ==> once[j] == favorites[j];
    assert k == |favorites|;
    assert once[..k] == favorites;
  }

  /** Toggling a present item twice restores its membership but moves it to
      the end: the result is the list without it, followed by the item passed. */
  lemma ToggleTwiceMovesToEnd(favorites: seq<Movie>, movie: Movie)
    requires DistinctIds(favorites) && HasId(favorites, movie.id)
    ensures Toggle(Toggle(favorites, movie), movie) == RemoveFirst(favorites, movie.id) + [movie]
  {
    ToggleFlipsMembership(favorites, movie);
    ToggleIsRemoveFirst(favorites, movie);
  }

  /** So the order is not restored in general: with `a` before `b`, toggling
      `a` twice leaves `b` before `a`. */
  lemma ToggleTwiceReorders()
    ensures var a := Movie(1, Some("A"), None, None, None, None, None, None, None);
            var b := Movie(2, Some("B"), None, None, None, None, None, None, None);
            Toggle(Toggle([a, b], a), a) == [b, a] != [a, b]
  {
    var a := Movie(1, Some("A"), None, None, None, None, None, None, None);
    var b := Movie(2, Some("B"), None, None, None, None, None, None, None);
    assert FindIndex([a, b], 1) == 0;
    assert Toggle([a, b], a) == [b];
    assert FindIndex([b], 1) == -1;
  }

  /** Applies a sequence of toggles in order, as successive presses do. */
  function ToggleAll(favorites: seq<Movie>, presses: seq<Movie>): seq<Movie>
    decreases |presses|
  {
    if |presses| == 0 then favorites
    else ToggleAll(Toggle(favorites, presses[0]), presses[1..])
  }

  /** Starting from the empty list the provider begins with, any sequence of
      toggles keeps the ids distinct. */
  lemma {:induction false} TogglesKeepIdsDistinct(favorites: seq<Movie>, presses: seq<Movie>)
    requires DistinctIds(favorites)
    ensures DistinctIds(ToggleAll(favorites, presses))
    decreases |presses|
  {
    if |presses| > 0 {
      TogglePreservesDistinctIds(favorites, presses[0]);
      TogglesKeepIdsDistinct(Toggle(favorites, presses[0]), presses[1..]);
    }
  }

  /** The provider state: the in-memory list and the device's key-value
      storage. */
  datatype Provider = Provider(favorites: seq<Movie>, storage: map<string, string>)

  /** Mounting the provider: the list starts empty, storage is whatever the
      device already holds. */
  function Mount(storage: map<string, string>): (p: Provider)
    ensures p.favorites == [] && p.storage == storage
  {
    Provider([], storage)
  }

  /** `toggleFavorite`: update the list and write its serialisation (given as
      `encode`) under the favorites key, leaving every other key alone. */
  function ToggleFavorite(p: Provider, movie: Movie, encode: seq<Movie> -> string): (r: Provider)
    ensures r.favorites == Toggle(p.favorites, movie)
    ensures DistinctIds(p.favorites) ==> DistinctIds(r.favorites)
    ensures DistinctIds(p.favorites) ==> (HasId(r.favorites, movie.id) <==> !HasId(p.favorites, movie.id))
    ensures StorageKey in r.storage && r.storage[StorageKey] == encode(r.favorites)
    ensures r.storage - {StorageKey} == p.storage - {StorageKey}
  {
    var updated := Toggle(p.favorites, movie);
    assert DistinctIds(p.favorites) ==>
             DistinctIds(updated) && (HasId(updated, movie.id) <==> !HasId(p.favorites, movie.id)) by {
      if DistinctIds(p.favorites) {
        TogglePreservesDistinctIds(p.favorites, movie);
        ToggleFlipsMembership(p.favorites, movie);
      }
    }
    Provider(updated, p.storage[StorageKey := encode(updated)])
  }

  /** The outcome of `loadFavorites`: the provider afterwards, and whether the
      load rejected because the stored text did not parse. */
  datatype Hydration = Hydration(provider: Provider, rejected: bool)

  /** The stored text under the favorites key, when it is truthy (present and
      non-empty). */
  function StoredText(storage: map<string, string>): Option<string> {
    if StorageKey in storage && storage[StorageKey] != "" then Some(storage[StorageKey]) else None
  }

  /** `loadFavorites`: a truthy stored value replaces the list with its parse
      (`decode`, `None` when parsing throws); an absent or empty value leaves the
      list as it is. A parse failure is not caught: the list stays as it was and
      the load rejects. Storage is only read. */
  function LoadFavorites(p: Provider, decode: string -> Option<seq<Movie>>): (r: Hydration)
    ensures r.provider.storage == p.storage
    ensures StoredText(p.storage).None? ==> r == Hydration(p, false)
    ensures r.rejected <==> StoredText(p.storage).Some? && decode(StoredText(p.storage).value).None?
    ensures r.rejected ==> r.provider == p
    ensures !r.rejected && StoredText(p.storage).Some? ==>
              Some(r.provider.favorites) == decode(StoredText(p.storage).value)
  {
    match StoredText(p.storage)
    case None => Hydration(p, false)
    case Some(text) =>
      match decode(text)
      case None => Hydration(p, true)
      case Some(favs) => Hydration(Provider(favs, p.storage), false)
  }

  /** A fresh provider on a device with nothing stored starts with no favorites. */
  lemma FreshStartIsEmpty(storage: map<string, string>, decode: string -> Option<seq<Movie>>)
    requires StorageKey !in storage
    ensures LoadFavorites(Mount(storage), decode) == Hydration(Provider([], storage), false)
  {
  }

  /** In this sequential model the stored value reflects the in-memory list
      (a rejected write or a late hydration is not modelled): after a toggle, a
      new provider hydrated from the same storage holds the toggled list,
      provided the serialisation reads back and is never empty. */
  lemma ReloadRestoresToggledList(p: Provider, movie: Movie,
                                  encode: seq<Movie> -> string, decode: string -> Option<seq<Movie>>)
    requires forall favs :: decode(encode(favs)) == Some(favs)
    requires forall favs :: encode(favs) != ""
    ensures var saved := ToggleFavorite(p, movie, encode);
            LoadFavorites(Mount(saved.storage), decode) == Hydration(saved, false)
  {
  }
}
