# Movie discovery page — a Dafny model

This project models the logic of a single-page movie browser that queries the
OMDb movie database. The page keeps five pieces of state: the raw search
term, the settled search term, `movieList`, `errorMessage` and `isLoading`.
The fetch cycle changes the last three. Whenever the settled search term
changes, the page's effect runs. It starts a fetch cycle unless the term is
whitespace only. The cycle turns loading on and clears the message. It then
requests either a search for the term or, for an empty term, the default
listing. Every search result gets its own detail lookup. A successful lookup
copies the rating and the first language; a failed one leaves the item as it
was. The outcome goes into the state, and a
`finally` step turns loading off again. The results section shows a spinner,
an error text or a grid of movie cards, under the heading "Search Results" or
"Popular Movies". Each card fills in defaults for missing fields.

Files:

- `js.dfy` (module `Js`): the JavaScript behaviours the page relies on.
  These are values that may be `undefined`, objects with string properties,
  `||` on strings, `split(sep)[0]` and `trim()`.
- `movie_card.dfy` (module `MovieCard`): the card's destructuring defaults and
  its displayed strings.
- `app.dfy` (module `App`): the endpoints, the per-item enrichment, the
  reference definition of a cycle's outcome (`CycleOutcome`), the effect's
  guard and the rendering choice. It also holds the class `App.App`, the
  component's state. `FetchMovies` in that class is the cycle, written step
  by step as the source does it, and it is proved to end in `CycleOutcome`.

How the outside world is represented:

- The network is a `Provider`: for each URL the page requests, it gives the
  answer to a search or to a detail lookup.
- A rejected search `fetch` is `Rejected`. A search body that `json()`
  rejects, or that is `null`, is `Unreadable`. Any failure of a detail
  lookup is `DetailFailed`. The source sends each merged case to the same
  `catch`.
- The API key and `encodeURIComponent` are fields of `Env`, and the key is
  taken as the text it becomes inside a URL.
- The 500 ms debounce is the method `Settle`, which the timer would call.
- A ghost log `history` records the state after every update of the results
  section's state (the raw search term is not part of it), so each
  cycle's loading behaviour can be stated from its first update to its last.

Behaviours of the code worth noting:

- A search response that is not ok throws "Failed to fetch movies". The catch
  block never shows that text. It shows "Error fetching movies. Please try
  again later." (`CycleFails`).
- A reply whose `Response` is not "False" but which has no `Search` array
  makes `data.Search.map` throw. The page then shows the generic error, not an
  empty grid (`CycleFails`). Only a reply with an empty `Search` array gives an
  empty grid.
- The detail lookup never checks `ok`. A reply with an error status but a
  readable body still enriches the item, with whatever `imdbRating` and
  `Language` that body holds.
- A whitespace-only settled term starts no cycle. The heading then reads
  "Search Results" while the list and the message stay as the previous cycle
  left them (`App.App.Settle`).

## Model

`CycleFails`, `CycleFindsNothing` and `CycleFinds` each state the outcome
that one branch of `CycleOutcome` leads to. `FetchMovies` calls them on the
branch it takes.

| member | source | states |
|---|---|---|
| `Js.Or` | src/App.jsx:41 | `v \|\| fallback` is the value itself when it is a non-empty string, otherwise the fallback |
| `Js.SplitFirst` | src/App.jsx:58 | `s.split(sep)[0]` is the prefix of `s` before the first occurrence of `sep`. It is all of `s` exactly when `sep` does not occur, and it never contains `sep` |
| `Js.SplitFirstCommaAfterCommaSpace` | src/components/MovieCard.jsx:34 | splitting at the first `", "` and then at the first `","` gives the same text as splitting at the first `","` |
| `Js.TrimStart` | src/App.jsx:78 | removes exactly the leading whitespace: the result is a suffix, the dropped characters are whitespace, and the result does not start with whitespace |
| `Js.TrimEnd` | src/App.jsx:78 | removes exactly the trailing whitespace: the result is a prefix, the dropped characters are whitespace, and the result does not end with whitespace |
| `Js.Trim` | src/App.jsx:78 | `trim()` yields a string that is empty or starts and ends with non-whitespace |
| `Js.TrimIsInner` | src/App.jsx:78 | `trim()` yields the stretch of `s` between its leading and its trailing whitespace |
| `Js.TrimEmptyIff` | src/App.jsx:78 | `trim()` is empty if and only if every character is whitespace |
| `MovieCard.Destructure` | src/components/MovieCard.jsx:4-10 | a missing movie gets all five defaults; a property that reads as `undefined` gets its default ("No title available", "N/A", "N/A", "N/A", "EN"); any other value is kept |
| `MovieCard.Render` | src/components/MovieCard.jsx:14-37 | the image shows the poster if and only if it is not "N/A", else "/no-movie.png"; the alt text is the title; rating and year are shown unchanged; the language is shown up to its first comma, unchanged when it has none |
| `MovieCard.LanguageOfList` | src/components/MovieCard.jsx:34 | a card whose movie has the language "French,English" shows "French" |
| `App.SearchParam` | src/App.jsx:25-29 | the `s` parameter: the encoded query, or "movie" when the query is empty |
| `App.SearchEndpoint` | src/App.jsx:25-29 | the search URL starts with the base URL, the API key and `&s=`, and ends with `&type=movie` |
| `App.ParamBetweenConcat` | src/App.jsx:25-29 | reading the text between a URL's fixed prefix and suffix gives back the parameter placed there |
| `App.SearchEndpointCarriesQuery` | src/App.jsx:25-29 | the `s` parameter of the request is `encodeURIComponent(query)` for a non-empty query and "movie" for the empty one |
| `App.SearchEndpointInjective` | src/App.jsx:25-29 | two non-empty queries request the same URL only when they encode to the same text |
| `App.DefaultListingIsMovieSearch` | src/App.jsx:29 | when "movie" encodes to itself, the default listing is the same request as a search for "movie" |
| `App.DetailEndpoint` | src/App.jsx:51-53 | the detail URL: base URL, API key, `&i=` and the item's `imdbID` interpolated, then `&plot=short` |
| `App.DetailEndpointCarriesId` | src/App.jsx:52 | a detail lookup asks for the item's `imdbID`, or for "undefined" when the item has none |
| `App.PrimaryLanguage` | src/App.jsx:58 | the language is non-empty and has no `", "`. It is "EN" when the field is absent or its first segment is empty, and otherwise the prefix before the first `", "` |
| `App.PrimaryLanguageOfList` | src/App.jsx:58 | a record with the language "French, English" contributes "French" |
| `App.Enrich` | src/App.jsx:49-63 | a failed lookup returns the item unchanged; a successful one keeps every other property, sets `imdbRating` to the record's value (possibly `undefined`) and sets `Language` to the primary language |
| `App.EnhanceAll` | src/App.jsx:47-65 | same length and order as the search results; item `i` is item `i` enriched by its own lookup, so one failure affects only its own item |
| `App.CycleOutcome` | src/App.jsx:20-75 | the state a cycle settles to; an error message never stands beside a non-empty list |
| `App.CycleFails` | src/App.jsx:31-48 | a rejected request, a response that is not ok, an unreadable body or a missing `Search` array end with the generic message and an empty list |
| `App.CycleFindsNothing` | src/App.jsx:40-44 | `Response == "False"` ends with `Error` when that is a non-empty string, else "No movies found", and an empty list |
| `App.CycleFinds` | src/App.jsx:47-67 | success ends with an empty message and the search results in order, each unchanged or changed only in `imdbRating` and `Language` |
| `App.ShouldFetch` | src/App.jsx:78 | the effect's guard: the trimmed term is non-empty, or the term is empty |
| `App.ShouldFetchIff` | src/App.jsx:77-81 | a settled term starts a cycle if and only if it is empty or has a non-whitespace character |
| `App.Render` | src/App.jsx:98-112 | spinner if and only if loading; else the error text if and only if the message is non-empty; else one card per list item, in order, keyed by `imdbID`. The heading is "Search Results" if and only if the settled term is non-empty |
| `App.EnrichedCard` | src/App.jsx:55-59 | the card of an enriched item shows the record's rating ("N/A" if none) and its language up to the first comma ("EN" if none), with title, year and poster taken from the search result |
| `App.SpinnerThroughout` | src/App.jsx:98-101 | during a cycle every state renders the spinner, all under the heading shown before the cycle; the final state does not show the spinner |
| `App.App.Valid` | src/App.jsx:14-16 | between cycles nothing is loading, an error message never stands beside results, and the log ends with the current state |
| `App.App.Mount` | src/App.jsx:12-16 | the initial state is empty and not loading; the mount effect then runs a full cycle for the empty term and ends in its `CycleOutcome` |
| `App.App.SetSearchTerm` | src/App.jsx:13 | the raw term is replaced |
| `App.App.Settle` | src/App.jsx:18 | the settled term becomes the raw term. If that changes it and the term passes the guard, a full cycle runs; otherwise the list and the message are unchanged, and the log gains only the new settled term (nothing at all when the term did not change), so no spinner appears. The invariant is kept: not loading, and no error beside results |
| `App.App.RunEffect` | src/App.jsx:77-81 | runs a cycle for the settled term exactly when the guard holds, and otherwise changes nothing |
| `App.App.FetchMovies` | src/App.jsx:20-75 | ends in `CycleOutcome`. The first update turns loading on, the second clears the message, every update up to the last keeps loading on, and the last update (the `finally`) turns it off, on every path |
| `App.App.SetIsLoading` | src/App.jsx:16 | sets `isLoading` and logs the new state |
| `App.App.SetErrorMessage` | src/App.jsx:15 | sets `errorMessage` and logs the new state |
| `App.App.SetMovieList` | src/App.jsx:14 | sets `movieList` and logs the new state |
| `App.App.SetDebouncedSearchTerm` | src/App.jsx:12 | sets the settled term and logs the new state |

## Left out

- Real network calls, JSON parsing and `console.log`/`console.error`: these are
  I/O. The `Provider` answers and the outcome datatypes stand for them.
- `encodeURIComponent` is a browser function. It is an uninterpreted field of
  `Env` (it could throw `URIError` only on lone surrogates, which Dafny
  strings cannot hold).
- The API key's environment lookup (src/App.jsx:8) is I/O. The key is given
  as text in `Env`.
- The `useDebounce` 500 ms timer is a foreign library plus timing. `Settle` is
  the timer's callback, and when it fires is not modelled.
- Overlapping fetch cycles and the stale-response race: this is concurrency.
  Every cycle runs to its end before the next starts.
- The `Promise.all` fan-out is modelled as an order-preserving map. The items
  are independent, so evaluation order does not matter.
- React rendering and batching are UI. The `history` log records every update
  of the results section's state; a batched render shows one of them.
- JSX markup, CSS classes, the hero header, and the `Search` and `Spinner`
  components are UI. `Search.jsx` and `Spinner.jsx` are not part of this model.
- The image `onError` handler (src/components/MovieCard.jsx:17-20) is a
  browser event side effect.
- JSON values other than strings are not modelled; properties are strings or
  `undefined`. One `null` case behaves like a modelled one: a `null`
  `Language` in a detail record gives "EN", exactly as an absent one does,
  because of the `?.` at src/App.jsx:58. Any other `null`, number or nested value goes
  another way. For example, a `null` entry in `Search` is returned as it is by
  the per-item `catch` (reading its `imdbID` throws inside the inner `try`),
  and reading its `key` throws while the grid renders (src/App.jsx:107).
  A `null` `Language` reaching the card makes `language.split` throw
  (src/components/MovieCard.jsx:34).
- `Provider`: a detail answer depends only on the requested URL. Two results
  with the same `imdbID` therefore get the same answer, while the page sends
  them as two separate requests that could end differently. For such results,
  `EnhanceAll`'s "one failure affects only its own item" does not cover the
  case where one of the two requests fails and the other succeeds.
- Object key order after `{...movie, ...}` is not modelled, because objects
  are maps. Nothing on the page reads the order.
- JavaScript strings are UTF-16 code units; the model uses Unicode scalar
  values. All characters `trim()` removes are in the Basic Multilingual Plane,
  so the guard is unaffected.
