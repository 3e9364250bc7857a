/** The home screen: two feeds sharing one spinner, a search box with its
    own state, and the choice of which section to draw. */
module HomeScreen {
  import opened Js
  import opened Text
  import opened Movies
  import opened Grid
  import opened Listing

  /** How many trending cards and popular cards the home screen shows. */
  const TrendingShown: nat := 6
  const PopularShown: nat := 4

  /** The search box state: the raw text typed, the last results and the
      spinner flag. */
  datatype Search = Search(query: string, results: seq<Movie>, isSearching: bool)

  /** The whole screen state. `connected` is what the network listener last
      reported. */
  datatype Home = Home(movies: seq<Movie>, popular: seq<Movie>, loading: bool,
                       connected: bool, search: Search)

  /** The state right after mounting. */
  function Mounted(): (h: Home)
    ensures h.movies == [] && h.popular == [] && h.loading && h.connected
    ensures h.search.query == "" && h.search.results == [] && !h.search.isSearching
  {
    Home([], [], true, true, Search("", [], false))
  }

  /** `loadMovies`: the trending list takes the results when there are some,
      and the shared spinner goes off either way. */
  function LoadMovies(h: Home, res: Response): (r: Home)
    ensures !r.loading
    ensures HasResults(res) ==> r.movies == res.results.value
    ensures !HasResults(res) ==> r.movies == h.movies
    ensures r.popular == h.popular && r.search == h.search && r.connected == h.connected
  {
    h.(movies := Receive(h.movies, res), loading := false)
  }

  /** `loadPop`: the same for the popular list. */
  function LoadPop(h: Home, res: Response): (r: Home)
    ensures !r.loading
    ensures HasResults(res) ==> r.popular == res.results.value
    ensures !HasResults(res) ==> r.popular == h.popular
    ensures r.movies == h.movies && r.search == h.search && r.connected == h.connected
  {
    h.(popular := Receive(h.popular, res), loading := false)
  }

  /** The two loads run concurrently; the final state does not depend on which
      finishes first. */
  lemma LoadOrderIrrelevant(h: Home, trending: Response, popular: Response)
    ensures LoadMovies(LoadPop(h, popular), trending) == LoadPop(LoadMovies(h, trending), popular)
  {
  }

  /** The spinner flag is shared, so whichever load finishes first switches it
      off while the other list is still empty. */
  lemma FirstLoadEndsSpinner(trending: seq<Movie>)
    ensures var h := LoadMovies(Mounted(), Body(Some(trending)));
            !h.loading && h.popular == []
  {
  }

  /** `onChangeText`: the box holds exactly what was typed. */
  function ChangeQuery(s: Search, text: string): (r: Search)
    ensures r.query == text && r.results == s.results && r.isSearching == s.isSearching
  {
    s.(query := text)
  }

  /** How the search request settles: with a list, or by throwing. */
  datatype SearchReply = Resolved(items: seq<Movie>) | Threw

  /** One run of `handleSearch`: either no request is made, or a request for
      `request` is made, the state is `pending` while it runs and `settled`
      once it finishes. */
  datatype SearchRun =
    | NoRequest(state: Search)
    | Requested(request: string, pending: Search, settled: Search)
  {
    /** The state after the run is over. */
    function Final(): Search {
      match this
      case NoRequest(s) => s
      case Requested(_, _, s) => s
    }
  }

  /** `handleSearch(query)`: a query that trims to nothing clears the results
      without a request; otherwise the raw query is sent with the spinner on,
      the results are the reply (or empty when it throws), and the spinner
      goes off on both paths. */
  function HandleSearch(s: Search, query: string, reply: SearchReply): (r: SearchRun)
    ensures r.NoRequest? <==> AllSpace(query)
    ensures r.NoRequest? ==> r.state == Search(s.query, [], false)
    ensures r.Requested? ==> r.request == query && r.pending == Search(s.query, s.results, true)
    ensures r.Requested? ==> r.settled.query == s.query && !r.settled.isSearching
    ensures r.Requested? && reply.Threw? ==> r.settled.results == []
    ensures r.Requested? && reply.Resolved? ==> r.settled.results == reply.items
  {
    TrimEmptyIffAllSpace(query);
    if Trim(query) == "" then
      NoRequest(s.(results := [], isSearching := false))
    else
      var pending := s.(isSearching := true);
      var results := match reply
        case Resolved(items) => items
        case Threw => [];
      Requested(query, pending, pending.(results := results, isSearching := false))
  }

  /** The debounced trigger: when the typing pause ends, a non-empty box runs
      `handleSearch` on its text; an empty box does nothing at all. */
  function QuerySettled(s: Search, reply: SearchReply): (r: SearchRun)
    ensures s.query == "" ==> r == NoRequest(s)
    ensures s.query != "" && AllSpace(s.query) ==> r == NoRequest(Search(s.query, [], false))
    ensures r.Requested? <==> !AllSpace(s.query)
    ensures r.Requested? ==> r.request == s.query && !r.settled.isSearching
    ensures r.Requested? && reply.Resolved? ==> r.settled.results == reply.items
    ensures r.Requested? && reply.Threw? ==> r.settled.results == []
    ensures s.query != "" ==> r == HandleSearch(s, s.query, reply)
    ensures r.Final().query == s.query
  {
    if s.query != "" then HandleSearch(s, s.query, reply) else NoRequest(s)
  }

  /** `clearSearch`: empty box, no results, no spinner, whatever the state. */
  function ClearSearch(s: Search): (r: Search)
    ensures r.query == "" && r.results == [] && !r.isSearching
  {
    Search("", [], false)
  }

  /** What the screen draws. */
  datatype Section =
    | Offline
    | SearchSpinner
    | NoResults(query: string)
    | SearchGrid(rows: seq<seq<Movie>>)
    | FeedSpinner
    | Feeds(trendingRows: seq<seq<Movie>>, popularCards: seq<Movie>)
  {
    predicate IsSearchSection() {
      SearchSpinner? || NoResults? || SearchGrid?
    }
  }

  /** The screen's branches: the offline notice, then the search section for
      any non-empty box (white space included), otherwise the feeds: the first
      six trending movies in rows of two and the first four popular ones. */
  function Render(h: Home): (v: Section)
    ensures v.Offline? <==> !h.connected
    ensures h.connected ==> (v.IsSearchSection() <==> |h.search.query| > 0)
    ensures h.connected && h.search.query != "" ==> (v.SearchSpinner? <==> h.search.isSearching)
    ensures v.SearchGrid? ==> h.search.results != [] && v.rows == Pairs(h.search.results)
    ensures v.SearchGrid? ==> Flatten(v.rows) == h.search.results
    ensures v.NoResults? ==> h.search.results == [] && !h.search.isSearching
    ensures v.NoResults? ==> v.query == h.search.query
    ensures h.connected && h.search.query != "" && !h.search.isSearching ==>
              (v.NoResults? <==> h.search.results == [])
    ensures v.FeedSpinner? <==> h.connected && h.search.query == "" && h.loading
    ensures v.Feeds? ==> v.trendingRows == Pairs(Take(h.movies, TrendingShown))
    ensures v.Feeds? ==> Flatten(v.trendingRows) == h.movies[..Min(TrendingShown, |h.movies|)]
    ensures v.Feeds? ==> v.popularCards == h.popular[..Min(PopularShown, |h.popular|)]
  {
    if !h.connected then Offline
    else if |h.search.query| > 0 then
      if h.search.isSearching then SearchSpinner
      else if |h.search.results| == 0 then NoResults(h.search.query)
      else
        PairsShape(h.search.results);
        SearchGrid(Pairs(h.search.results))
    else if h.loading then FeedSpinner
    else
      var trending := Take(h.movies, TrendingShown);
      PairsShape(trending);
      Feeds(Pairs(trending), Take(h.popular, PopularShown))
  }

  /** A box holding only white space shows the search section with "no
      movies found" once the pause ends, and no request is made. */
  lemma BlankQueryShowsNoResults(h: Home, reply: SearchReply)
    requires h.connected && h.search.query != "" && AllSpace(h.search.query)
    ensures QuerySettled(h.search, reply).NoRequest?
    ensures Render(h.(search := QuerySettled(h.search, reply).Final())) == NoResults(h.search.query)
  {
  }

  /** Clearing the box brings the feeds back, whatever the search was doing. */
  lemma ClearShowsFeeds(h: Home)
    requires h.connected
    ensures !Render(h.(search := ClearSearch(h.search))).IsSearchSection()
  {
  }
}
