/** The trending screen: the whole trending list in rows of two, after a
    spinner while it loads. */
module TrendingScreen {
  import opened Movies
  import opened Grid
  import opened Listing

  datatype View = Spinner | Rows(rows: seq<seq<Movie>>)

  /** The spinner while loading, then every movie once, in order, two a row. */
  function Render(s: Screen): (v: View)
    ensures v.Spinner? <==> s.loading
    ensures v.Rows? ==> Flatten(v.rows) == s.items && |v.rows| == (|s.items| + 1) / 2
    ensures v.Rows? ==> forall k :: 0 <= k < |v.rows| ==> 1 <= |v.rows[k]| <= 2
    ensures v.Rows? ==> forall k :: 0 <= k < |v.rows| - 1 ==> |v.rows[k]| == 2
    ensures v.Rows? ==> v.rows == Pairs(s.items)
  {
    if s.loading then Spinner
    else
      PairsShape(s.items);
      Rows(Pairs(s.items))
  }
}
