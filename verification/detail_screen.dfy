/** The detail screen's text: title, overview and the genre line built from
    the genre table (a list of id/name entries). */
module DetailScreen {
  import opened Js
  import opened Movies

  const NoOverview: string := "No overview available for this movie."
  const Separator: string := ", "

  /** `GENRES.genres.find(g => g.id === id)?.name`: the name of the first
      table entry with this id, or nothing when no entry has it. */
  function Lookup(table: seq<(int, string)>, id: int): (r: Option<string>)
    ensures r.Some? ==> exists i :: 0 <= i < |table| && table[i] == (id, r.value)
                                    && forall j :: 0 <= j < i ==> table[j].0 != id
    ensures r.None? <==> forall i :: 0 <= i < |table| ==> table[i].0 != id
  {
    if |table| == 0 then None
    else if table[0].0 == id then Some(table[0].1)
    else
      var r := Lookup(table[1..], id);
      assert forall i :: 1 <= i < |table| ==> table[i] == table[1..][i - 1];
      r
  }

  /** `ids.map(lookup).filter(Boolean)`: the names found, skipping ids with no
      entry and entries whose name is empty. */
  function Names(ids: seq<int>, table: seq<(int, string)>): (r: seq<string>)
    ensures |r| <= |ids|
    ensures forall k :: 0 <= k < |r| ==> r[k] != ""
  {
    if |ids| == 0 then []
    else
      var rest := Names(ids[1..], table);
      match Lookup(table, ids[0])
      case Some(n) => if n != "" then [n] + rest else rest
      case None => rest
  }

  /** The names of a single id: its first entry's name when non-empty, else
      nothing. */
  lemma NamesOfOne(table: seq<(int, string)>, id: int)
    ensures Names([id], table) == if Lookup(table, id).Some? && Lookup(table, id).value != ""
                                   then [Lookup(table, id).value] else []
  {
  }

  /** Names keep the order of the ids: the names of a concatenation are the
      concatenation of the names. */
  lemma {:induction false} NamesAppend(a: seq<int>, b: seq<int>, table: seq<(int, string)>)
    ensures Names(a + b, table) == Names(a, table) + Names(b, table)
  {
    if |a| > 0 {
      assert (a + b)[1..] == a[1..] + b;
      NamesAppend(a[1..], b, table);
    } else {
      assert a + b == b;
    }
  }

  /** `names.join(', ')`. */
  function Join(names: seq<string>): string {
    if |names| == 0 then ""
    else if |names| == 1 then names[0]
    else names[0] + Separator + Join(names[1..])
  }

  /** The joined line starts with the first name and ends with the last, so
      it has no leading or trailing separator. */
  lemma {:induction false} JoinEnds(names: seq<string>)
    requires |names| > 0
    ensures names[0] <= Join(names)
    ensures var r, last := Join(names), names[|names| - 1];
            |last| <= |r| && r[|r| - |last|..] == last
  {
    if |names| > 1 {
      JoinEnds(names[1..]);
      var tail := Join(names[1..]);
      assert Join(names) == names[0] + (Separator + tail);
    }
  }

  /** Joining two non-empty runs of names puts exactly one separator between
      them. */
  lemma {:induction false} JoinAppend(a: seq<string>, b: seq<string>)
    requires |a| > 0 && |b| > 0
    ensures Join(a + b) == Join(a) + Separator + Join(b)
  {
    var ab := a + b;
    assert ab[0] == a[0];
    if |a| == 1 {
      assert ab[1..] == b;
      assert Join(ab) == a[0] + Separator + Join(b);
    } else {
      assert ab[1..] == a[1..] + b;
      JoinAppend(a[1..], b);
      calc {
        Join(ab);
        a[0] + Separator + Join(a[1..] + b);
        a[0] + Separator + (Join(a[1..]) + Separator + Join(b));
        (a[0] + Separator + Join(a[1..])) + Separator + Join(b);
      }
    }
  }

  /** `getGenreNames(movie.genre_ids)`: a missing id list counts as empty. */
  function GenreLine(genreIds: Option<seq<int>>, table: seq<(int, string)>): (r: string)
    ensures r == Join(Names(genreIds.GetOr([]), table))
    ensures genreIds.None? ==> r == ""
    ensures r == "" <==> Names(genreIds.GetOr([]), table) == []
  {
    var names := Names(genreIds.GetOr([]), table);
    if |names| == 0 then "" else
      JoinEnds(names);
      assert |names[0]| > 0;
      Join(names)
  }

  /** `movie.overview || 'No overview available for this movie.'`. */
  function Overview(m: Movie): (r: string)
    ensures Truthy(m.overview) ==> r == m.overview.value
    ensures !Truthy(m.overview) ==> r == NoOverview
    ensures r != ""
  {
    Or(m.overview, Some(NoOverview)).value
  }
}
