/** The movie page: the fetch cycle that searches the OMDb movie database,
    enriches every result with a detail lookup and records the outcome in the
    page's three state fields, the rule that decides which settled search terms
    start a cycle, and the choice of what the results section shows. */
module App {
  import opened Js
  import MovieCard

  const BaseUrl := "https://www.omdbapi.com/"
  /** Shown for a failed search request and for any error thrown in a cycle. */
  const GenericError := "Error fetching movies. Please try again later."
  /** Shown when the provider reports no results without a message of its own. */
  const NoMoviesFound := "No movies found"
  /** The language an enriched movie gets when its detail record names none. */
  const LanguageFallback := "EN"
  const SearchResultsHeading := "Search Results"
  const PopularMoviesHeading := "Popular Movies"

  /** What the page takes from its host: the API key, as it reads when put into
      a URL, and the browser's `encodeURIComponent`. */
  datatype Env = Env(apiKey: string, encodeURIComponent: string -> string)

  /** The fields of a search reply that the page looks at: `Response`, `Error`
      and `Search` (`None` when the reply has no `Search` array). */
  datatype SearchData = SearchData(response: Option<string>, error: Option<string>, search: Option<seq<JsObject>>)

  /** The body of a search reply: `Unreadable` when `json()` rejects or yields
      `null`. */
  datatype SearchBody = Unreadable | Json(data: SearchData)

  /** How a search request ends: `fetch` rejects, or a response arrives with
      its `ok` flag and its body. */
  datatype SearchOutcome = Rejected | Response(ok: bool, body: SearchBody)

  /** How a detail lookup ends: it fails (`fetch` or `json()` rejects, or the
      body is `null`), or it yields a record. */
  datatype DetailOutcome = DetailFailed | Details(record: JsObject)

  /** The movie database as the page sees it during one cycle: the answer to
      each URL it requests. */
  datatype Provider = Provider(search: string -> SearchOutcome, detail: string -> DetailOutcome)

  // ---------------------------------------------------------------------------
  // Endpoints

  function SearchPrefix(env: Env): string {
    BaseUrl + "?apikey=" + env.apiKey + "&s="
  }

  const SearchSuffix := "&type=movie"

  /** The `s` parameter of a search: the encoded query, or "movie" for the
      default listing when the query is empty. */
  function SearchParam(env: Env, query: string): string {
    if query != "" then env.encodeURIComponent(query) else "movie"
  }

  /** The URL a cycle for `query` requests. */
  function SearchEndpoint(env: Env, query: string): (url: string)
    ensures |url| >= |SearchPrefix(env)| + |SearchSuffix|
    ensures url[..|SearchPrefix(env)|] == SearchPrefix(env)
    ensures url[|url| - |SearchSuffix|..] == SearchSuffix
  {
    SearchPrefix(env) + SearchParam(env, query) + SearchSuffix
  }

  /** The text between `prefix` and `suffix` of a URL of that shape, or
      `None` for a URL of another shape: how the provider reads the one
      parameter a request of this page varies. */
  function ParamBetween(url: string, prefix: string, suffix: string): Option<string> {
    if |url| >= |prefix| + |suffix| && url[..|prefix|] == prefix && url[|url| - |suffix|..] == suffix then
      Some(url[|prefix|..|url| - |suffix|])
    else
      None
  }

  lemma ParamBetweenConcat(prefix: string, param: string, suffix: string)
    ensures ParamBetween(prefix + param + suffix, prefix, suffix) == Some(param)
  {
    var url := prefix + param + suffix;
    assert url[..|prefix|] == prefix;
    assert url[|url| - |suffix|..] == suffix;
    assert url[|prefix|..|url| - |suffix|] == param;
  }

  /** The request carries the encoded query; an empty query asks for the
      default listing. */
  lemma SearchEndpointCarriesQuery(env: Env, query: string)
    ensures ParamBetween(SearchEndpoint(env, query), SearchPrefix(env), SearchSuffix) ==
            Some(if query == "" then "movie" else env.encodeURIComponent(query))
  {
    ParamBetweenConcat(SearchPrefix(env), SearchParam(env, query), SearchSuffix);
  }

  /** Two non-empty queries request the same URL only when they encode alike. */
  lemma {:induction false} SearchEndpointInjective(env: Env, q1: string, q2: string)
    requires q1 != "" && q2 != ""
    requires SearchEndpoint(env, q1) == SearchEndpoint(env, q2)
    ensures env.encodeURIComponent(q1) == env.encodeURIComponent(q2)
  {
    SearchEndpointCarriesQuery(env, q1);
    SearchEndpointCarriesQuery(env, q2);
  }

  /** The default listing is the same request as a search for "movie", since
      `encodeURIComponent` leaves that word alone. */
  lemma DefaultListingIsMovieSearch(env: Env)
    requires env.encodeURIComponent("movie") == "movie"
    ensures SearchEndpoint(env, "") == SearchEndpoint(env, "movie")
  {
  }

  /** A template-literal substitution: `undefined` reads as "undefined". */
  function Interpolate(v: Option<string>): string {
    match v
    case Some(s) => s
    case None => "undefined"
  }

  function DetailPrefix(env: Env): string {
    BaseUrl + "?apikey=" + env.apiKey + "&i="
  }

  const DetailSuffix := "&plot=short"

  /** The URL of the detail lookup for one search result. */
  function DetailEndpoint(env: Env, movie: JsObject): string {
    DetailPrefix(env) + Interpolate(Get(movie, "imdbID")) + DetailSuffix
  }

  /** A detail lookup asks for the movie's own `imdbID`, or for the text
      "undefined" when the search result has none. */
  lemma DetailEndpointCarriesId(env: Env, movie: JsObject)
    ensures ParamBetween(DetailEndpoint(env, movie), DetailPrefix(env), DetailSuffix) ==
            Some(match Get(movie, "imdbID") case Some(id) => id case None => "undefined")
  {
    ParamBetweenConcat(DetailPrefix(env), Interpolate(Get(movie, "imdbID")), DetailSuffix);
  }

  // ---------------------------------------------------------------------------
  // Enrichment

  /** `Language?.split(", ")[0] || "EN"`: the first language a detail record
      names, or "EN" when it names none. */
  function PrimaryLanguage(language: Option<string>): (p: string)
    ensures p != "" && !Contains(p, ", ")
    ensures language.None? ==> p == LanguageFallback
    ensures p != LanguageFallback ==>
      && language.Some?
      && |p| <= |language.value| && p == language.value[..|p|]
      && (p == language.value || OccursAt(language.value, ", ", |p|))
    ensures language.Some? && language.value != "" && !Contains(language.value, ", ") ==> p == language.value
    ensures language.Some? && OccursAt(language.value, ", ", 0) ==> p == LanguageFallback
    ensures language.Some? && language.value != "" && !OccursAt(language.value, ", ", 0) ==>
      && |p| <= |language.value| && p == language.value[..|p|]
      && (p == language.value || OccursAt(language.value, ", ", |p|))
  {
    assert LanguageFallback[0] == 'E' && LanguageFallback[1] == 'N';
    AbsentWithoutFirstChar(LanguageFallback, ", ");
    match language
    case None => LanguageFallback
    case Some(s) =>
      var first := SplitFirst(s, ", ");
      if first != "" then first else LanguageFallback
  }

  /** A record naming several languages contributes its first one. */
  lemma PrimaryLanguageOfList()
    ensures PrimaryLanguage(Some("French, English")) == "French"
  {
    var v := "French, English";
    assert v[6..8] == ", ";
    assert Contains(v, ", ") by { assert OccursAt(v, ", ", 6); }
    forall j | 0 <= j < |v| && j != 6 ensures !OccursAt(v, ", ", j) {
      NotAt(v, ", ", j);
    }
    NotAt(v, ", ", 0);
    var p := PrimaryLanguage(Some(v));
    assert p != v;
    assert |p| == 6;
    assert p == v[..6];
  }

  /** The two keys a successful detail lookup writes. */
  const EnrichedKeys: set<string> := {"imdbRating", "Language"}

  /** `a` and `b` have the same properties with the same values, apart from
      the keys in `keys`. */
  predicate AgreesExcept(a: JsObject, b: JsObject, keys: set<string>) {
    && a.Keys - keys == b.Keys - keys
    && forall k :: k in a && k !in keys ==> k in b && a[k] == b[k]
  }

  /** One result of the `data.Search.map` step: the movie unchanged when its
      detail lookup failed, else `{...movie, imdbRating, Language}`. */
  function Enrich(movie: JsObject, detail: DetailOutcome): (e: JsObject)
    ensures detail.DetailFailed? ==> e == movie
    ensures detail.Details? ==>
      && AgreesExcept(e, movie, EnrichedKeys)
      && "imdbRating" in e && e["imdbRating"] == Get(detail.record, "imdbRating")
      && "Language" in e && e["Language"] == Some(PrimaryLanguage(Get(detail.record, "Language")))
  {
    match detail
    case DetailFailed => movie
    case Details(record) =>
      movie["imdbRating" := Get(record, "imdbRating")]["Language" := Some(PrimaryLanguage(Get(record, "Language")))]
  }

  /** `Promise.all(data.Search.map(...))`: every search result, in order,
      each enriched by its own detail lookup; a failed lookup leaves only its
      own item unenriched. */
  function EnhanceAll(env: Env, net: Provider, items: seq<JsObject>): (r: seq<JsObject>)
    ensures |r| == |items|
    ensures forall i :: 0 <= i < |items| ==> r[i] == Enrich(items[i], net.detail(DetailEndpoint(env, items[i])))
    ensures forall i :: 0 <= i < |items| ==>
      r[i] == items[i] || AgreesExcept(r[i], items[i], EnrichedKeys)
    decreases |items|
  {
    if items == [] then []
    else [Enrich(items[0], net.detail(DetailEndpoint(env, items[0])))] + EnhanceAll(env, net, items[1..])
  }

  // ---------------------------------------------------------------------------
  // The outcome of a cycle

  /** The list and the error message a cycle leaves behind. */
  datatype Outcome = Outcome(movieList: seq<JsObject>, errorMessage: string)

  /** What the fetch cycle for `query` settles to, given the provider's
      answers. An error message never stands beside results. */
  function CycleOutcome(env: Env, query: string, net: Provider): (r: Outcome)
    ensures r.errorMessage != "" ==> r.movieList == []
  {
    match net.search(SearchEndpoint(env, query))
    case Rejected => Outcome([], GenericError)
    case Response(ok, body) =>
      if !ok then Outcome([], GenericError)
      else match body
        case Unreadable => Outcome([], GenericError)
        case Json(data) =>
          if data.response == Some("False") then Outcome([], Or(data.error, NoMoviesFound))
          else match data.search
            case None => Outcome([], GenericError)
            case Some(items) => Outcome(EnhanceAll(env, net, items), "")
  }

  /** A rejected search request, a response that is not ok, an unreadable
      body and a reply without a `Search` array to map over all end the cycle
      in the generic message with the list cleared. */
  lemma CycleFails(env: Env, query: string, net: Provider)
    requires var answer := net.search(SearchEndpoint(env, query));
      || answer.Rejected?
      || !answer.ok
      || answer.body.Unreadable?
      || (answer.body.data.response != Some("False") && answer.body.data.search.None?)
    ensures CycleOutcome(env, query, net) == Outcome([], GenericError)
  {
  }

  /** A "no results" reply ends the cycle in the provider's message, or
      "No movies found" when that is missing or empty, with the list cleared. */
  lemma CycleFindsNothing(env: Env, query: string, net: Provider, data: SearchData)
    requires net.search(SearchEndpoint(env, query)) == Response(true, Json(data))
    requires data.response == Some("False")
    ensures CycleOutcome(env, query, net) == Outcome([], Or(data.error, NoMoviesFound))
    ensures data.error.Some? && data.error.value != "" ==> CycleOutcome(env, query, net).errorMessage == data.error.value
    ensures !(data.error.Some? && data.error.value != "") ==> CycleOutcome(env, query, net).errorMessage == NoMoviesFound
  {
  }

  /** Otherwise the list holds every search result, in order, each unchanged
      or changed in `imdbRating` and `Language` only, and the message stays
      empty. */
  lemma CycleFinds(env: Env, query: string, net: Provider, data: SearchData, items: seq<JsObject>)
    requires net.search(SearchEndpoint(env, query)) == Response(true, Json(data))
    requires data.response != Some("False") && data.search == Some(items)
    ensures var r := CycleOutcome(env, query, net);
      && r.errorMessage == ""
      && r.movieList == EnhanceAll(env, net, items)
      && |r.movieList| == |items|
      && forall i :: 0 <= i < |items| ==>
           r.movieList[i] == items[i] || AgreesExcept(r.movieList[i], items[i], EnrichedKeys)
  {
  }

  // ---------------------------------------------------------------------------
  // Gating and rendering

  /** The effect's guard: a settled term starts a cycle when it is empty or
      has something other than whitespace in it. */
  predicate ShouldFetch(term: string) {
    Trim(term) != "" || term == ""
  }

  lemma ShouldFetchIff(term: string)
    ensures ShouldFetch(term) <==> term == "" || exists i :: 0 <= i < |term| && !IsWhitespace(term[i])
  {
    TrimEmptyIff(term);
  }

  /** What the results section is drawn from. */
  datatype ViewState = ViewState(debouncedSearchTerm: string, movieList: seq<JsObject>, errorMessage: string, isLoading: bool)

  datatype GridItem = GridItem(key: Option<string>, card: MovieCard.Card)
  datatype Content = Spinner | ErrorText(message: string) | Grid(items: seq<GridItem>)
  datatype Page = Page(heading: string, content: Content)

  /** The results section: its heading, and the spinner, the error text or
      one card per movie, keyed by `imdbID`. */
  function Render(s: ViewState): (p: Page)
    ensures p.heading == SearchResultsHeading <==> s.debouncedSearchTerm != ""
    ensures p.heading == PopularMoviesHeading <==> s.debouncedSearchTerm == ""
    ensures p.content.Spinner? <==> s.isLoading
    ensures p.content.ErrorText? <==> !s.isLoading && s.errorMessage != ""
    ensures p.content.ErrorText? ==> p.content.message == s.errorMessage
    ensures p.content.Grid? <==> !s.isLoading && s.errorMessage == ""
    ensures p.content.Grid? ==>
      && |p.content.items| == |s.movieList|
      && forall i :: 0 <= i < |s.movieList| ==>
           p.content.items[i] == GridItem(Get(s.movieList[i], "imdbID"), MovieCard.Render(Some(s.movieList[i])))
  {
    var heading := if s.debouncedSearchTerm != "" then SearchResultsHeading else PopularMoviesHeading;
    var content :=
      if s.isLoading then Spinner
      else if s.errorMessage != "" then ErrorText(s.errorMessage)
      else Grid(seq(|s.movieList|, i requires 0 <= i < |s.movieList| =>
                  GridItem(Get(s.movieList[i], "imdbID"), MovieCard.Render(Some(s.movieList[i])))));
    Page(heading, content)
  }

  /** The card of an enriched movie shows the detail record's rating ("N/A"
      when it has none) and the record's language up to its first comma ("EN"
      when the record names no language before its first ", "); title, year
      and poster come from the search result. */
  lemma {:induction false} EnrichedCard(movie: JsObject, record: JsObject)
    ensures var c := MovieCard.Render(Some(Enrich(movie, Details(record))));
      var plain := MovieCard.Render(Some(movie));
      && c.rating == (match Get(record, "imdbRating") case Some(v) => v case None => MovieCard.NotAvailable)
      && c.language == (match Get(record, "Language")
                        case None => LanguageFallback
                        case Some(s) => if SplitFirst(s, ", ") == "" then LanguageFallback else SplitFirst(s, ","))
      && c.title == plain.title && c.year == plain.year && c.imageSrc == plain.imageSrc
  {
    var e := Enrich(movie, Details(record));
    assert Get(e, "Title") == Get(movie, "Title");
    assert Get(e, "Year") == Get(movie, "Year");
    assert Get(e, "Poster") == Get(movie, "Poster");
    assert LanguageFallback[0] == 'E' && LanguageFallback[1] == 'N';
    AbsentWithoutFirstChar(LanguageFallback, ",");
    match Get(record, "Language")
    case None =>
    case Some(s) =>
      SplitFirstCommaAfterCommaSpace(s);
  }

  // ---------------------------------------------------------------------------
  // The page component and its state

  /** The log `after` extends `before` by one whole cycle that started from
      `start` and ended in `end`: the first update turns loading on, the
      second clears the message, every update up to the last keeps loading
      on, and the last turns it off. The
      settled term stays the one the cycle started with. */
  ghost predicate LoadingThroughout(before: seq<ViewState>, after: seq<ViewState>, start: ViewState, end: ViewState)
  {
    && |after| >= |before| + 3
    && after[..|before|] == before
    && after[|before|] == start.(isLoading := true)
    && after[|before| + 1] == start.(isLoading := true, errorMessage := "")
    && (forall i :: |before| <= i < |after| - 1 ==> after[i].isLoading)
    && (forall i :: |before| <= i < |after| ==> after[i].debouncedSearchTerm == start.debouncedSearchTerm)
    && after[|after| - 1] == end && !end.isLoading
  }

  /** While a cycle runs the results section shows the spinner, under the
      heading it had before the cycle, which stays; once the cycle ends it no
      longer shows the spinner. */
  lemma SpinnerThroughout(before: seq<ViewState>, after: seq<ViewState>, start: ViewState, end: ViewState)
    requires LoadingThroughout(before, after, start, end)
    ensures forall i :: |before| <= i < |after| - 1 ==> Render(after[i]).content == Spinner
    ensures forall i :: |before| <= i < |after| ==> Render(after[i]).heading == Render(start).heading
    ensures Render(end).content != Spinner
  {
  }

  /** The log `h` extends `before` by a cycle still in progress that started
      from `start` and has made its two opening updates: every update since is
      a loading state. */
  ghost predicate StillLoading(before: seq<ViewState>, h: seq<ViewState>, start: ViewState)
  {
    && |h| >= |before| + 2
    && h[..|before|] == before
    && h[|before|] == start.(isLoading := true)
    && h[|before| + 1] == start.(isLoading := true, errorMessage := "")
    && (forall i :: |before| <= i < |h| ==> h[i].isLoading)
    && (forall i :: |before| <= i < |h| ==> h[i].debouncedSearchTerm == start.debouncedSearchTerm)
  }

  lemma StaysLoading(before: seq<ViewState>, h: seq<ViewState>, start: ViewState, s: ViewState)
    requires StillLoading(before, h, start) && s.isLoading
    requires s.debouncedSearchTerm == start.debouncedSearchTerm
    ensures StillLoading(before, h + [s], start)
  {
    assert (h + [s])[..|before|] == h[..|before|];
  }

  lemma StopsLoading(before: seq<ViewState>, h: seq<ViewState>, start: ViewState, s: ViewState)
    requires StillLoading(before, h, start) && !s.isLoading
    requires s.debouncedSearchTerm == start.debouncedSearchTerm
    ensures LoadingThroughout(before, h + [s], start, s)
  {
    assert (h + [s])[..|before|] == h[..|before|];
  }

  class App {
    const env: Env
    /** The raw text of the search box. */
    var searchTerm: string
    /** The search term once typing has settled. */
    var debouncedSearchTerm: string
    var movieList: seq<JsObject>
    var errorMessage: string
    var isLoading: bool
    /** Every state the results section passes through: one entry per state
        update, in order (a render may batch several updates; it then shows the
        last of them). */
    ghost var history: seq<ViewState>

    function State(): ViewState
      reads this
    {
      ViewState(debouncedSearchTerm, movieList, errorMessage, isLoading)
    }

    /** Between cycles: nothing is loading, an error message never stands
        beside results, and the log ends with the current state. */
    ghost predicate Valid()
      reads this
    {
      && !isLoading
      && (errorMessage != "" ==> movieList == [])
      && history != [] && history[|history| - 1] == State()
    }

    /** The first render, then the effect for the initial empty term. */
    constructor Mount(env: Env, net: Provider)
      ensures Valid()
      ensures this.env == env && searchTerm == "" && debouncedSearchTerm == ""
      ensures Outcome(movieList, errorMessage) == CycleOutcome(env, "", net)
      ensures history[0] == ViewState("", [], "", false)
      ensures LoadingThroughout([history[0]], history, history[0], State())
    {
      this.env := env;
      searchTerm := "";
      debouncedSearchTerm := "";
      movieList := [];
      errorMessage := "";
      isLoading := false;
      history := [ViewState("", [], "", false)];
      new;
      // the initial empty term passes the effect's guard
      assert ShouldFetch(debouncedSearchTerm);
      RunEffect(net);
      assert searchTerm == "" && debouncedSearchTerm == "";
    }

    /** `setSearchTerm`, called by the search box on every keystroke. */
    method SetSearchTerm(term: string)
      modifies this`searchTerm
      ensures searchTerm == term
    {
      searchTerm := term;
    }

    /** The debounce timer fires: the raw term becomes the settled term, and
        when that changes it the effect runs. A whitespace-only term leaves the
        list and the message as they were, and logs only the new settled term. */
    method Settle(net: Provider)
      requires Valid()
      modifies this`debouncedSearchTerm, this`movieList, this`errorMessage, this`isLoading, this`history
      ensures Valid()
      ensures debouncedSearchTerm == searchTerm
      ensures old(searchTerm) != old(debouncedSearchTerm) && ShouldFetch(searchTerm) ==>
        && Outcome(movieList, errorMessage) == CycleOutcome(env, searchTerm, net)
        && LoadingThroughout(old(history) + [old(State()).(debouncedSearchTerm := searchTerm)], history,
                             old(State()).(debouncedSearchTerm := searchTerm), State())
      ensures !(old(searchTerm) != old(debouncedSearchTerm) && ShouldFetch(searchTerm)) ==>
        && movieList == old(movieList) && errorMessage == old(errorMessage)
        && history == old(history) + (if old(searchTerm) != old(debouncedSearchTerm) then [State()] else [])
    {
      if searchTerm != debouncedSearchTerm {
        SetDebouncedSearchTerm(searchTerm);
        RunEffect(net);
      }
    }

    /** The effect that runs whenever the settled term changes. */
    method RunEffect(net: Provider)
      requires history != [] && history[|history| - 1] == State()
      modifies this`movieList, this`errorMessage, this`isLoading, this`history
      ensures searchTerm == old(searchTerm) && debouncedSearchTerm == old(debouncedSearchTerm)
      ensures ShouldFetch(debouncedSearchTerm) ==>
        && Outcome(movieList, errorMessage) == CycleOutcome(env, debouncedSearchTerm, net)
        && LoadingThroughout(old(history), history, old(State()), State())
      ensures !ShouldFetch(debouncedSearchTerm) ==>
        movieList == old(movieList) && errorMessage == old(errorMessage) &&
        isLoading == old(isLoading) && history == old(history)
    {
      if ShouldFetch(debouncedSearchTerm) {
        FetchMovies(debouncedSearchTerm, net);
      }
    }

    /** One fetch cycle for `query`. */
    method FetchMovies(query: string, net: Provider)
      requires history != [] && history[|history| - 1] == State()
      modifies this`movieList, this`errorMessage, this`isLoading, this`history
      ensures Outcome(movieList, errorMessage) == CycleOutcome(env, query, net)
      ensures LoadingThroughout(old(history), history, old(State()), State())
    {
      ghost var before, start := history, State();
      SetIsLoading(true);
      SetErrorMessage("");
      assert StillLoading(before, history, start) by {
        assert history[..|before|] == before;
      }
      ghost var h;
      // `caught` records that the try block threw: a rejected fetch, a
      // response that is not ok ("Failed to fetch movies", never shown), an
      // unreadable body, or a reply without a `Search` array to map over.
      var caught := false;
      match net.search(SearchEndpoint(env, query)) {
        case Rejected =>
          caught := true;
          CycleFails(env, query, net);
        case Response(ok, body) =>
          if !ok {
            caught := true;
            CycleFails(env, query, net);
          } else if body.Unreadable? {
            caught := true;
            CycleFails(env, query, net);
          } else if body.data.response == Some("False") {
            CycleFindsNothing(env, query, net, body.data);
            h := history;
            SetErrorMessage(Or(body.data.error, NoMoviesFound));
            StaysLoading(before, h, start, State());
            h := history;
            SetMovieList([]);
            StaysLoading(before, h, start, State());
            // the early return: only the finally block still runs
          } else if body.data.search.None? {
            caught := true;
            CycleFails(env, query, net);
          } else {
            CycleFinds(env, query, net, body.data, body.data.search.value);
            var enhancedMovies := EnhanceAll(env, net, body.data.search.value);
            h := history;
            SetMovieList(enhancedMovies);
            StaysLoading(before, h, start, State());
          }
      }
      if caught {
        h := history;
        SetErrorMessage(GenericError);
        StaysLoading(before, h, start, State());
        h := history;
        SetMovieList([]);
        StaysLoading(before, h, start, State());
      }
      h := history;
      SetIsLoading(false);
      StopsLoading(before, h, start, State());
    }

    /** The state setters; each update is logged. */
    method SetIsLoading(v: bool)
      modifies this`isLoading, this`history
      ensures isLoading == v && history == old(history) + [State()]
    {
      isLoading := v;
      history := history + [State()];
    }

    method SetErrorMessage(v: string)
      modifies this`errorMessage, this`history
      ensures errorMessage == v && history == old(history) + [State()]
    {
      errorMessage := v;
      history := history + [State()];
    }

    method SetMovieList(v: seq<JsObject>)
      modifies this`movieList, this`history
      ensures movieList == v && history == old(history) + [State()]
    {
      movieList := v;
      history := history + [State()];
    }

    method SetDebouncedSearchTerm(v: string)
      modifies this`debouncedSearchTerm, this`history
      ensures debouncedSearchTerm == v && history == old(history) + [State()]
    {
      debouncedSearchTerm := v;
      history := history + [State()];
    }
  }
}
