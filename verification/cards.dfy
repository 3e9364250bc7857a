/** What a movie card shows: the heart state and the fallbacks the screens
    use for title, year and image. Each screen picks its own order. */
module Cards {
  import opened Js
  import opened Movies
  import opened Favorites

  const Heart: string := "heart"
  const HeartOutline: string := "heart-outline"

  /** `favorites.some(fav => fav.id === item.id) ? 'heart' : 'heart-outline'`. */
  function HeartIcon(favorites: seq<Movie>, item: Movie): (icon: string)
    ensures icon == Heart || icon == HeartOutline
    ensures icon == Heart <==> exists i :: 0 <= i < |favorites| && favorites[i].id == item.id
  {
    if IsFavorite(favorites, item.id) then Heart else HeartOutline
  }

  /** Pressing a card's heart flips that card's icon when the list keeps
      distinct ids, and on every list leaves the icon of each card with
      another id as it was. */
  lemma HeartFollowsToggle(favorites: seq<Movie>, pressed: Movie, other: Movie)
    ensures DistinctIds(favorites) ==>
              HeartIcon(Toggle(favorites, pressed), pressed) != HeartIcon(favorites, pressed)
    ensures other.id != pressed.id ==>
              HeartIcon(Toggle(favorites, pressed), other) == HeartIcon(favorites, other)
  {
    if DistinctIds(favorites) {
      ToggleFlipsMembership(favorites, pressed);
    }
    if other.id != pressed.id {
      ToggleKeepsOtherIds(favorites, pressed, other.id);
    }
  }

  /** `item.title || item.name`. */
  function TitleOrName(m: Movie): (r: Option<string>)
    ensures r == m.title || r == m.name
    ensures Truthy(r) <==> Truthy(m.title) || Truthy(m.name)
    ensures Truthy(m.title) ==> r == m.title
    ensures !Truthy(m.title) ==> r == m.name
  {
    Or(m.title, m.name)
  }

  /** `item.name || item.title`. */
  function NameOrTitle(m: Movie): (r: Option<string>)
    ensures r == m.name || r == m.title
    ensures Truthy(r) <==> Truthy(m.title) || Truthy(m.name)
    ensures Truthy(m.name) ==> r == m.name
    ensures !Truthy(m.name) ==> r == m.title
  {
    Or(m.name, m.title)
  }

  /** The two title orders show something for the same movies, and show
      different text only when both fields are set and differ. */
  lemma TitleOrdersAgreeUnlessBothSet(m: Movie)
    ensures Truthy(TitleOrName(m)) <==> Truthy(NameOrTitle(m))
    ensures Truthy(TitleOrName(m)) && TitleOrName(m) != NameOrTitle(m) ==>
              Truthy(m.title) && Truthy(m.name) && m.title != m.name
  {
  }

  /** The four-character year prefix of a date. */
  function Year(date: Option<string>): (r: Option<string>)
    ensures r.Some? <==> date.Some?
    ensures r.Some? ==> |r.value| == Min(4, |date.value|) && r.value <= date.value
  {
    Prefix(date, 4)
  }

  /** `item.release_date?.slice(0, 4) || item.first_air_date?.slice(0, 4)`:
      the year of the release date, falling back to the first air date. */
  function ReleaseYearFirst(m: Movie): (r: Option<string>)
    ensures Truthy(r) ==> |r.value| <= 4
    ensures Truthy(r) ==> (m.releaseDate.Some? && r.value <= m.releaseDate.value)
                          || (m.firstAirDate.Some? && r.value <= m.firstAirDate.value)
    ensures Truthy(m.releaseDate) ==> Truthy(r) && r.value <= m.releaseDate.value
    ensures Truthy(m.releaseDate) ==> |r.value| == Min(4, |m.releaseDate.value|)
    ensures !Truthy(m.releaseDate) ==> r == Year(m.firstAirDate)
    ensures Truthy(r) <==> Truthy(m.releaseDate) || Truthy(m.firstAirDate)
  {
    Or(Year(m.releaseDate), Year(m.firstAirDate))
  }

  /** `item.first_air_date?.slice(0, 4) || item.release_date?.slice(0, 4)`:
      the opposite preference. */
  function FirstAirYearFirst(m: Movie): (r: Option<string>)
    ensures Truthy(r) ==> |r.value| <= 4
    ensures Truthy(r) ==> (m.releaseDate.Some? && r.value <= m.releaseDate.value)
                          || (m.firstAirDate.Some? && r.value <= m.firstAirDate.value)
    ensures Truthy(m.firstAirDate) ==> Truthy(r) && r.value <= m.firstAirDate.value
    ensures Truthy(m.firstAirDate) ==> |r.value| == Min(4, |m.firstAirDate.value|)
    ensures !Truthy(m.firstAirDate) ==> r == Year(m.releaseDate)
    ensures Truthy(r) <==> Truthy(m.releaseDate) || Truthy(m.firstAirDate)
  {
    Or(Year(m.firstAirDate), Year(m.releaseDate))
  }

  /** The favorites screen and the popular screen show a year for the same
      movies, and show different years only when both dates are set. */
  lemma YearOrdersAgreeUnlessBothSet(m: Movie)
    ensures Truthy(ReleaseYearFirst(m)) <==> Truthy(FirstAirYearFirst(m))
    ensures Truthy(ReleaseYearFirst(m)) && ReleaseYearFirst(m) != FirstAirYearFirst(m) ==>
              Truthy(m.releaseDate) && Truthy(m.firstAirDate)
  {
  }

  /** `item.backdrop_path || item.poster_path`: the image path of the home
      and detail screens. */
  function BackdropFirst(m: Movie): (r: Option<string>)
    ensures r == m.backdropPath || r == m.posterPath
    ensures Truthy(m.backdropPath) ==> r == m.backdropPath
    ensures !Truthy(m.backdropPath) ==> r == m.posterPath
    ensures Truthy(r) <==> Truthy(m.backdropPath) || Truthy(m.posterPath)
  {
    Or(m.backdropPath, m.posterPath)
  }

  /** `item.poster_path || item.backdrop_path`: the image path of the
      trending screen, the opposite preference. */
  function PosterFirst(m: Movie): (r: Option<string>)
    ensures r == m.posterPath || r == m.backdropPath
    ensures Truthy(m.posterPath) ==> r == m.posterPath
    ensures !Truthy(m.posterPath) ==> r == m.backdropPath
    ensures Truthy(r) <==> Truthy(m.backdropPath) || Truthy(m.posterPath)
  {
    Or(m.posterPath, m.backdropPath)
  }

  /** The home screen and the trending screen pick different images exactly
      when a movie has both a poster and a backdrop and they differ. */
  lemma ImageChoicesDifferOnlyWithBoth(m: Movie)
    ensures Truthy(BackdropFirst(m)) <==> Truthy(PosterFirst(m))
    ensures Truthy(m.posterPath) && Truthy(m.backdropPath) ==>
              (BackdropFirst(m) == PosterFirst(m) <==> m.posterPath == m.backdropPath)
  {
  }
}
