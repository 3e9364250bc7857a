# Cine Tracker — a Dafny model of its client-side state rules

Cine Tracker is a React Native movie-discovery app. It lists trending and
popular movies fetched from a movie-metadata API, searches them, shows a
detail page, keeps a list of favorite movies in device key-value storage,
offers a light/dark theme switch, and signs users in and up through an
identity provider.

This project models the deterministic logic behind those screens as pure
Dafny functions over immutable values and proves what that logic promises:

- **Favorites provider** (`Favorites`): the ordered list of favorite movies,
  keyed by `id`; the toggle that splices out the first entry with the
  pressed movie's id or appends the movie; the write-through of the list to
  storage under the key `favorites`; and hydration from storage at start-up.
- **Theme provider** (`Theme`): the initial scheme and the toggle.
- **Screen rules**: rows of two cards (`Grid`), the first-6/first-4 display
  limits, how a fetched page replaces a list (`Listing`), the heart icon and
  the title/year/image fallbacks (`Cards`), the home screen's search state
  machine and section choice (`HomeScreen`), the favorites screen's empty
  state and remove button (`FavoriteScreen`), the trending grid
  (`TrendingScreen`), the genre line and overview of the detail page
  (`DetailScreen`), and the sign-up and sign-in forms (`Auth`,
  `SignUpScreen`, `SignInScreen`).
- JavaScript semantics the rules rely on (`Js`, `Text`): `undefined`/`null`
  as `None`, truthiness of strings (`""` is falsy), `a || b`, clamping
  `slice`, and `String.prototype.trim` with ECMAScript's white-space set.

Abstractions:
- Storage is a `map<string, string>`. JSON serialisation is a parameter
  `encode: seq<Movie> -> string`; parsing is a parameter
  `decode: string -> Option<seq<Movie>>` where `None` means the parse throws.
- Network replies are inputs: a list fetch resolves to `Failed` (the API
  wrapper's `null`) or a body whose `results` may be missing; a search
  resolves to a list or throws.
- The genre table is a parameter `seq<(int, string)>`.
- The network-connectivity flag is a field set from outside.

Code behaviours worth knowing, all modelled as the code has them:
- The initial theme is whatever truthy value the system reports, taken as
  it is; only a missing or empty value gives `dark`.
- Stored text that does not parse leaves the list as it was, and the load
  rejects (`Hydration.rejected`); there is no fallback to an empty list.
- Items are never rejected by the toggle; every `Movie` has an integer id.
- The toggle flips membership only while ids are distinct. Toggling from
  the empty list keeps them distinct, but a list read from storage is
  taken as it is.

## Model

| member | source | states |
|---|---|---|
| `Favorites.FindIndex` | src/services/FavoriteContext.js:11 | The result is -1 exactly when no entry has the id; otherwise it is the first position holding the id. |
| `Favorites.IsFavorite` | src/screens/HomeScreen.jsx:122 | `some` by id holds exactly when some entry carries the id. |
| `Favorites.Toggle` | src/services/FavoriteContext.js:9-16 | With the id present the list shrinks by one; with it absent the result is the old list with the movie appended at the end. |
| `Favorites.RemoveFirstIsSplice` | src/services/FavoriteContext.js:11-13 | Walking the list and dropping the first matching entry equals the splice at `findIndex`. |
| `Favorites.ToggleRemovesFirstMatch` | src/services/FavoriteContext.js:11-13 | With the id present, toggle removes exactly the first entry with that id and keeps all other entries in their original order. |
| `Favorites.ToggleIsRemoveFirst` | src/services/FavoriteContext.js:11-13 | With the id present, toggle equals the reference walk that drops the first matching entry. |
| `Favorites.RemovalMatchesOnlyById` | src/services/FavoriteContext.js:11 | Removal depends on the id alone: items with equal ids remove the same entry, whatever their other fields. |
| `Favorites.ToggleFlipsMembership` | src/services/FavoriteContext.js:11-16 | On a list with distinct ids, the toggled id is a member afterwards exactly when it was not before. |
| `Favorites.ToggleKeepsOtherIds` | src/services/FavoriteContext.js:11-16 | Every other id keeps its membership. |
| `Favorites.TogglePreservesDistinctIds` | src/services/FavoriteContext.js:11-16 | Pairwise-distinct ids stay pairwise distinct after a toggle. |
| `Favorites.ToggleTwiceRestoresAbsent` | src/services/FavoriteContext.js:11-16 | Toggling an absent item twice restores the exact original list. |
| `Favorites.ToggleTwiceMovesToEnd` | src/services/FavoriteContext.js:11-16 | On a list with distinct ids, toggling a present item twice gives the list without it followed by the passed item, so only membership is restored. |
| `Favorites.ToggleTwiceReorders` | src/services/FavoriteContext.js:11-16 | A concrete two-item list where a double toggle changes the order. |
| `Favorites.TogglesKeepIdsDistinct` | src/services/FavoriteContext.js:7-16 | Any sequence of toggles from a list with distinct ids, such as the initial empty list, keeps ids distinct. |
| `Favorites.Mount` | src/services/FavoriteContext.js:7 | The provider starts with an empty list and the device's storage untouched. |
| `Favorites.ToggleFavorite` | src/services/FavoriteContext.js:9-19 | The value under `favorites` is the serialisation of the updated list and no other key changes; on a list with distinct ids, ids stay distinct and the pressed id's membership flips. |
| `Favorites.LoadFavorites` | src/services/FavoriteContext.js:21-26 | An absent or empty stored value leaves the list unchanged; a parsable one replaces the list; an unparsable one leaves the list and rejects; storage is only read. |
| `Favorites.FreshStartIsEmpty` | src/services/FavoriteContext.js:21-26 | With nothing stored, a freshly mounted provider hydrates to the empty list without error. |
| `Favorites.ReloadRestoresToggledList` | src/services/FavoriteContext.js:9-26 | After a toggle, a new provider hydrated from the same storage holds the toggled list, given a serialisation that reads back and is never empty. |
| `Theme.InitialTheme` | src/services/ThemeContext.js:7-8 | The initial theme is the system scheme when it is truthy, otherwise `dark`. |
| `Theme.ToggleTheme` | src/services/ThemeContext.js:10-12 | The toggle always yields `light` or `dark`, and yields `light` exactly from `dark`. |
| `Theme.ToggleTwiceRestores` | src/services/ThemeContext.js:11 | On `light` and `dark`, two toggles give back the original value. |
| `Theme.ToggleTwiceNormalises` | src/services/ThemeContext.js:11 | Any other value becomes `dark`, then `light`, so two toggles do not restore it. |
| `Theme.ToggledThemeIsStable` | src/services/ThemeContext.js:8-11 | After one toggle from any initial theme, the value is recognised and every two further toggles are the identity. |
| `Text.Trim` | src/screens/onBoarding/SignInScreen.jsx:30 | The trimmed string is no longer than the input and neither starts nor ends with white space. |
| `Text.TrimIsInfix` | src/screens/onBoarding/SignupScreen.jsx:29 | The trimmed string is the middle of the input, with only white space cut off at either end. |
| `Text.TrimEmptyIffAllSpace` | src/screens/HomeScreen.jsx:54 | A query trims to the empty string exactly when it is all white space. |
| `Grid.PairsShape` | src/screens/HomeScreen.jsx:93-97 | The rows concatenate back to the list, each holds one or two items, all but the last hold two, and there are ceil(n/2) rows. |
| `Grid.ChunkPairs` | src/screens/HomeScreen.jsx:93-97 | The pairing loop (the same at FavoriteScreen.jsx:20-23 and TrendingScreen.jsx:35-38) computes the rows of two, with the same shape guarantees. |
| `Grid.Take` | src/screens/HomeScreen.jsx:148 | `slice(0, k)` is the prefix of length min(k, n) in original order; used with 4 here and 6 at line 342. |
| `Listing.Receive` | src/screens/PopularScreen.jsx:29-31 | The list is replaced by the results array when there is one, even an empty one, and kept otherwise. |
| `Listing.Loaded` | src/screens/TrendingScreen.jsx:26-30 | A finished fetch replaces the items only when results are present and always clears `loading` (same at PopularScreen.jsx:27-33). |
| `Listing.LoadedIdempotent` | src/screens/TrendingScreen.jsx:26-30 | Receiving the same reply twice changes nothing more, and a failed fetch keeps the items shown. |
| `Listing.EmptyResultsReplace` | src/screens/PopularScreen.jsx:29-31 | An empty results array clears the list; a missing one keeps it. |
| `Cards.HeartIcon` | src/screens/TrendingScreen.jsx:62-67 | The heart is filled exactly when some favorite has the item's id (same at HomeScreen.jsx:121-125, 175-179 and PopularScreen.jsx:52-57). |
| `Cards.HeartFollowsToggle` | src/screens/HomeScreen.jsx:114-125 | On a list with distinct ids, pressing a heart flips that card's icon; on every list no card with another id changes. |
| `Cards.TitleOrName` | src/screens/FavoriteScreen.jsx:74 | The title shown is `title`, falling back to `name`; something shows iff either is set (same at DetailScreen.jsx:51). |
| `Cards.NameOrTitle` | src/screens/PopularScreen.jsx:64 | The title shown is `name`, falling back to `title` (same at HomeScreen.jsx:186). |
| `Cards.TitleOrdersAgreeUnlessBothSet` | src/screens/PopularScreen.jsx:64 | The two title orders show something for the same movies and differ only when both fields are set and differ. |
| `Cards.Year` | src/screens/HomeScreen.jsx:135 | `date?.slice(0, 4)` is present iff the date is, and is its prefix of length min(4, n). |
| `Cards.ReleaseYearFirst` | src/screens/FavoriteScreen.jsx:78-79 | The year shown is the first min(4, n) characters of the release date when that is set, and otherwise the first-air year (or nothing). |
| `Cards.FirstAirYearFirst` | src/screens/PopularScreen.jsx:68 | The year shown is the first min(4, n) characters of the first air date when that is set, and otherwise the release year (same at HomeScreen.jsx:190-191). |
| `Cards.YearOrdersAgreeUnlessBothSet` | src/screens/PopularScreen.jsx:68 | The two year orders show a year for the same movies and differ only when both dates are set. |
| `Cards.BackdropFirst` | src/screens/HomeScreen.jsx:108-110 | The image path is the backdrop when set, else the poster. |
| `Cards.PosterFirst` | src/screens/TrendingScreen.jsx:49-51 | The image path is the poster when set, else the backdrop. |
| `Cards.ImageChoicesDifferOnlyWithBoth` | src/screens/TrendingScreen.jsx:50 | Home and trending show an image for the same movies and pick different ones only when both paths are set and differ. |
| `HomeScreen.Mounted` | src/screens/HomeScreen.jsx:28-34 | Both lists and the results start empty, the spinner on, the box empty, no search running. |
| `HomeScreen.LoadMovies` | src/screens/HomeScreen.jsx:41-45 | Trending movies are replaced only by a results array, `loading` becomes false, nothing else changes. |
| `HomeScreen.LoadPop` | src/screens/HomeScreen.jsx:47-51 | The same for the popular list. |
| `HomeScreen.LoadOrderIrrelevant` | src/screens/HomeScreen.jsx:41-51 | The final state is the same whichever of the two loads completes first. |
| `HomeScreen.FirstLoadEndsSpinner` | src/screens/HomeScreen.jsx:41-51 | The shared flag goes off after the first load even while the popular list is still empty. |
| `HomeScreen.ChangeQuery` | src/screens/HomeScreen.jsx:288-289 | The box holds exactly the typed text; results and spinner are untouched. |
| `HomeScreen.HandleSearch` | src/screens/HomeScreen.jsx:53-70 | A query that is all white space clears results and the spinner with no request; otherwise the raw query is sent with the spinner on, and afterwards the spinner is off on both paths, with `[]` on error. |
| `HomeScreen.QuerySettled` | src/screens/HomeScreen.jsx:72-77 | When the typing pause ends, an empty box changes nothing; an all-space box clears the results with no request; any other box sends its raw text and ends with the spinner off, holding the reply's items, or `[]` when the request throws; a non-empty box is exactly `handleSearch` on its own text. |
| `HomeScreen.ClearSearch` | src/screens/HomeScreen.jsx:220-224 | Query `''`, results `[]`, `isSearching` false. |
| `HomeScreen.Render` | src/screens/HomeScreen.jsx:233-372 | Offline notice iff disconnected; the search section iff the raw query is non-empty, with the spinner exactly while `isSearching` is set, "no movies found" for the box's own text once a search leaves no results, and the results in rows of two; otherwise the feed spinner while loading, then the first 6 trending items in rows of two and the first 4 popular items, in order. |
| `HomeScreen.BlankQueryShowsNoResults` | src/screens/HomeScreen.jsx:302-321 | A white-space query shows the search section with "no movies found" and sends no request. |
| `HomeScreen.ClearShowsFeeds` | src/screens/HomeScreen.jsx:302 | After clearing, the search section is gone. |
| `FavoriteScreen.Render` | src/screens/FavoriteScreen.jsx:20-51 | The empty message shows iff there are no favorites; otherwise the rows hold every favorite once, in order, two a row except possibly the last, i.e. exactly `Pairs` of the list. |
| `FavoriteScreen.PressRemove` | src/screens/FavoriteScreen.jsx:53-56 | Remove on a listed card shortens the list by one, and with distinct ids removes exactly that card, keeping the others in order. |
| `TrendingScreen.Render` | src/screens/TrendingScreen.jsx:34-40 | A spinner while loading, then every movie once, in order, in ceil(n/2) rows of two except possibly the last, i.e. exactly `Pairs` of the list. |
| `DetailScreen.Lookup` | src/screens/DetailScreen.jsx:22-23 | The name is that of the first table entry with the id; nothing when no entry has it. |
| `DetailScreen.Names` | src/screens/DetailScreen.jsx:20-25 | At most one name per id, and no empty names. |
| `DetailScreen.NamesOfOne` | src/screens/DetailScreen.jsx:21-25 | An id contributes its first entry's name, or nothing when it has no entry or an empty name. |
| `DetailScreen.NamesAppend` | src/screens/DetailScreen.jsx:20-25 | Names follow the order of the ids: the names of a concatenation are the concatenation of the names. |
| `DetailScreen.JoinEnds` | src/screens/DetailScreen.jsx:26 | The joined line starts with the first name and ends with the last: no leading or trailing separator. |
| `DetailScreen.JoinAppend` | src/screens/DetailScreen.jsx:26 | Joining two non-empty runs puts exactly one `", "` between them. |
| `DetailScreen.GenreLine` | src/screens/DetailScreen.jsx:19-27 | The line is the found names joined with `", "`; an undefined `genre_ids` gives the empty line; the line is empty iff no name was found. |
| `DetailScreen.Overview` | src/screens/DetailScreen.jsx:65 | The overview when set and non-empty, otherwise the fixed placeholder. |
| `Auth.Submit` | src/screens/onBoarding/SignupScreen.jsx:23-29 | No request iff the raw email or password is empty; otherwise the email sent is `email.trim()` and the password is unchanged (same at SignInScreen.jsx:24-30). |
| `Auth.BlankEmailPassesGuard` | src/screens/onBoarding/SignupScreen.jsx:23-29 | An all-space email passes the guard and an empty email is sent. |
| `SignUpScreen.ErrorMessage` | src/screens/onBoarding/SignupScreen.jsx:36-44 | The three recognised codes map to their messages, and exactly the other codes get "Something went wrong. Try again.". |
| `SignUpScreen.KnownCodesDistinguished` | src/screens/onBoarding/SignupScreen.jsx:36-41 | The recognised codes get pairwise different messages. |
| `SignUpScreen.ResultAlert` | src/screens/onBoarding/SignupScreen.jsx:30-45 | Success alerts "User account created!"; a failure alerts the message for its code. |
| `SignInScreen.ErrorMessage` | src/screens/onBoarding/SignInScreen.jsx:41-49 | The three recognised codes map to their messages, and exactly the other codes get "Something went wrong.". |
| `SignInScreen.ResultToast` | src/screens/onBoarding/SignInScreen.jsx:31-55 | Success shows the success toast; every failure shows "Login Failed" with no second line. |
| `SignInScreen.MessageIsDropped` | src/screens/onBoarding/SignInScreen.jsx:41-54 | Two codes with different messages give the same failure toast. |
| `SignInScreen.IntendedResultToast` | src/screens/onBoarding/SignInScreen.jsx:51-54 | The corrected failure toast carries the computed message as its second line. |
| `SignInScreen.IntendedToastDistinguishesCodes` | src/screens/onBoarding/SignInScreen.jsx:51-54 | With the correction, codes with different messages give different toasts. |

## Left out

- The API wrappers in src/services/api.js (HTTP, headers, URLs): only their fallback results matter, and these are inputs (`Listing.Failed`, `SearchReply`).
- AsyncStorage I/O and JSON encoding: storage is a map; serialisation and parsing are parameters. A parse that yields something other than a list (`"null"`, an object) is not modelled; `decode` yields a list or fails.
- Concurrency and React scheduling: the toggle reads the list as of the last render, and storage writes are fire-and-forget. Each toggle is modelled as applied to the current list, one at a time.
- `Favorites.ToggleFavorite`: the write-through holds only in this sequential model. A rejected `AsyncStorage.setItem`, or a hydration that finishes after a toggle, leaves storage and the in-memory list out of step in the app.
- The 500 ms search debounce timer and its cancellation. Only the rule that a settled non-empty box triggers a search is kept (`HomeScreen.QuerySettled`).
- The network-connectivity listener: `connected` is an input field.
- The splash screen's timeout and auth subscription, navigation wiring, the profile screen, alerts and toasts as UI. Only their titles and texts are modelled.
- src/utils/storage.js: it calls `useState` at module scope, so it cannot run, and it duplicates the provider's toggle.
- Styles, image URL building, and float formatting of `vote_average` and `popularity`.
- The contents of the genre table, which lives in a file that is not part of this model; it is a parameter.
- `HomeScreen.HandleSearch`: the search wrapper can resolve to `undefined` when a body lacks `results`; the model's reply is always a list.
- `HomeScreen.HandleSearch`: overlapping searches and late replies are not modelled. The debounce cancels only the timer, not a request already running, so in the app the first search to settle turns the spinner off while another still runs, and a late reply can overwrite newer results or refill them after `clearSearch`. Each search here settles before the next input.
- JavaScript strings are UTF-16 and `slice` counts code units; the model's strings are sequences of Unicode scalar values. The dates and codes involved are ASCII.
- `DetailScreen.GenreLine`: `None` stands for an undefined `genre_ids`, which the default parameter turns into `[]`; a `null` `genre_ids` makes `.map` throw, and that crash is not modelled.
- `Favorites.ToggleFlipsMembership`: it requires distinct ids, because with a repeated id the toggle removes only the first copy and the id stays a member.

## Findings

| source | as written | input that shows it | evidently intended | confidence | as-written member | corrected member |
|---|---|---|---|---|---|---|
| src/screens/onBoarding/SignInScreen.jsx:41-54 | The message for the error code is computed into `message`, but the failure toast shows only "Login Failed". | `auth/wrong-password` and `auth/user-not-found` give the same toast. | Show the computed message as the toast's second line. | medium, not executed | `SignInScreen.MessageIsDropped` | `SignInScreen.IntendedToastDistinguishesCodes` |
