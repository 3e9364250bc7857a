/** The favorites screen: the saved movies in rows of two, each with a
    remove button, or a message when there are none. */
module FavoriteScreen {
  import opened Movies
  import opened Favorites
  import opened Grid

  datatype View = EmptyMessage | Rows(rows: seq<seq<Movie>>)

  /** The empty-state message shows exactly when there are no favorites;
      otherwise the rows hold every favorite once, in list order, two a row. */
  function Render(favorites: seq<Movie>): (v: View)
    ensures v.EmptyMessage? <==> |favorites| == 0
    ensures v.Rows? ==> Flatten(v.rows) == favorites && |v.rows| == (|favorites| + 1) / 2
    ensures v.Rows? ==> forall k :: 0 <= k < |v.rows| ==> 1 <= |v.rows[k]| <= 2
    ensures v.Rows? ==> forall k :: 0 <= k < |v.rows| - 1 ==> |v.rows[k]| == 2
    ensures v.Rows? ==> v.rows == Pairs(favorites)
  {
    if |favorites| == 0 then EmptyMessage
    else
      PairsShape(favorites);
      Rows(Pairs(favorites))
  }

  /** Pressing remove on the card of the favorite at `position`: its id is a
      member, so the toggle removes an entry; with distinct ids that entry is
      the pressed one and the rest keep their order. */
  function PressRemove(favorites: seq<Movie>, position: nat): (r: seq<Movie>)
    requires position < |favorites|
    ensures |r| == |favorites| - 1
    ensures DistinctIds(favorites) ==> r == favorites[..position] + favorites[position + 1..]
  {
    assert HasId(favorites, favorites[position].id);
    assert DistinctIds(favorites) ==> FindIndex(favorites, favorites[position].id) == position;
    Toggle(favorites, favorites[position])
  }
}
