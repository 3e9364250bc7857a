/** The movie record every screen passes around, as the movie-data API
    returns it. Only `id` is always present. */
module Movies {
  import opened Js

  datatype Movie = Movie(
    id: int,
    title: Option<string>,
    name: Option<string>,
    releaseDate: Option<string>,
    firstAirDate: Option<string>,
    posterPath: Option<string>,
    backdropPath: Option<string>,
    overview: Option<string>,
    genreIds: Option<seq<int>>
  )

  /** Some entry of `movies` carries `id`. */
  predicate HasId(movies: seq<Movie>, id: int) {
    exists i :: 0 <= i < |movies| && movies[i].id == id
  }

  /** No two entries of `movies` carry the same id. */
  predicate DistinctIds(movies: seq<Movie>) {
    forall i, j :: 0 <= i < j < |movies| ==> movies[i].id != movies[j].id
  }
}
