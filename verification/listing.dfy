/** How the list screens take in a fetched page of movies. */
module Listing {
  import opened Js
  import opened Movies

  /** What a list fetch resolves to: `Failed` for the `null` the API wrapper
      returns on a request error, otherwise the response body, whose `results`
      may be missing. */
  datatype Response = Failed | Body(results: Option<seq<Movie>>)

  /** `res?.results` is truthy: the body is there and carries a results array
      (an empty array is truthy too). */
  predicate HasResults(res: Response) {
    res.Body? && res.results.Some?
  }

  /** A list screen's state: the movies it shows and the spinner flag. */
  datatype Screen = Screen(items: seq<Movie>, loading: bool)

  /** `if (res?.results) setItems(res.results)`: the list is replaced only by
      a results array, and any other outcome keeps what was there. */
  function Receive(current: seq<Movie>, res: Response): (r: seq<Movie>)
    ensures HasResults(res) ==> r == res.results.value
    ensures !HasResults(res) ==> r == current
  {
    if HasResults(res) then res.results.value else current
  }

  /** A fetch completing on a list screen: the items follow `Receive` and the
      spinner is switched off whatever the outcome. */
  function Loaded(s: Screen, res: Response): (r: Screen)
    ensures !r.loading
    ensures HasResults(res) ==> r.items == res.results.value
    ensures !HasResults(res) ==> r.items == s.items
  {
    Screen(Receive(s.items, res), false)
  }

  /** A response is absorbed once: receiving it again changes nothing, and a
      failed fetch leaves the screen showing what it showed before. */
  lemma LoadedIdempotent(s: Screen, res: Response)
    ensures Loaded(Loaded(s, res), res) == Loaded(s, res)
    ensures Loaded(s, Failed).items == s.items
  {
  }

  /** An empty results array does replace the list, unlike a missing one. */
  lemma EmptyResultsReplace(s: Screen)
    ensures Loaded(s, Body(Some([]))).items == []
    ensures Loaded(s, Body(None)).items == s.items
  {
  }
}
