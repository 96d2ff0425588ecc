/**
 * The browser's movie store: one `MovieState` record changed in place by synchronous
 * reducers and by the three phases (pending / fulfilled / rejected) of the two
 * asynchronous requests, search and detail fetch.
 *
 * The HTTP call of each request is not modelled; it is given to the store as an
 * `HttpOutcome`: the response body, or a failure with the server's optional message.
 */
module MovieSlice {
  import opened Wrappers
  import opened Text

  datatype MovieListItemType = Movie | Series | Episode | Game

  /** One entry of a search result. */
  datatype MovieListItem = MovieListItem(
    title: string, year: string, imdbID: string, kind: MovieListItemType, poster: string)

  /** The detail record of one movie; the store keeps it whole and never inspects it. */
  datatype MovieDetail = MovieDetail(
    title: string, year: string, imdbID: string, kind: MovieListItemType, poster: string,
    plot: string, director: string, actors: string, runtime: string, genre: string,
    imdbRating: string, response: string)

  /** The body of a search response; `search` may be absent from it. */
  datatype MovieSearchResponse = MovieSearchResponse(
    search: Option<seq<MovieListItem>>, totalResults: string, response: string)

  datatype MovieState = MovieState(
    searchResults: seq<MovieListItem>,
    selectedMovie: Option<MovieDetail>,
    searchQuery: string,
    totalResults: string,
    isLoading: bool,
    isLoadingDetail: bool,
    error: Option<string>,
    searchHistory: seq<string>)

  const InitialState := MovieState([], None, "", "0", false, false, None, [])

  /** The most entries the search history holds. */
  const HistoryLimit := 10

  const SearchFailed := "Failed to search movies"
  const DetailFailed := "Failed to fetch movie details"
  const NoMoviesFound := "No movies found"

  /** What the HTTP client hands back: a response body, or an error carrying the server's message if it sent one. */
  datatype HttpOutcome<T> = Responded(data: T) | Failed(serverMessage: Option<string>)

  /** The action an asynchronous request ends with. */
  datatype ThunkResult<T> = Fulfilled(payload: T) | Rejected(reason: string)

  /**
   * The body of both request thunks: a response fulfils the request; a failure rejects it
   * with the server's message, or with `fallback` when the message is missing or empty
   * (JavaScript's `||` treats the empty string as absent).
   */
  function RunThunk<T>(outcome: HttpOutcome<T>, fallback: string): (r: ThunkResult<T>)
    ensures r.Fulfilled? <==> outcome.Responded?
    ensures r.Fulfilled? ==> r.payload == outcome.data
    ensures r.Rejected? ==> r.reason == fallback || Some(r.reason) == outcome.serverMessage
    ensures r.Rejected? && fallback != "" ==> r.reason != ""
    ensures outcome.Failed? && outcome.serverMessage.Some? && outcome.serverMessage.value != ""
            ==> r == Rejected(outcome.serverMessage.value)
  {
    match outcome
    case Responded(data) => Fulfilled(data)
    case Failed(message) =>
      if message.Some? && message.value != "" then Rejected(message.value) else Rejected(fallback)
  }

  /** `searchMovies`: rejected with "Failed to search movies" when the server names no reason. */
  function SearchMoviesThunk(outcome: HttpOutcome<MovieSearchResponse>): (r: ThunkResult<MovieSearchResponse>)
    ensures r.Fulfilled? <==> outcome.Responded?
    ensures r.Rejected? ==> r.reason != ""
    ensures outcome.Failed? && (outcome.serverMessage.None? || outcome.serverMessage.value == "")
            ==> r == Rejected(SearchFailed)
  {
    RunThunk(outcome, SearchFailed)
  }

  /** `fetchMovieDetail`: rejected with "Failed to fetch movie details" when the server names no reason. */
  function FetchMovieDetailThunk(outcome: HttpOutcome<MovieDetail>): (r: ThunkResult<MovieDetail>)
    ensures r.Fulfilled? <==> outcome.Responded?
    ensures r.Rejected? ==> r.reason != ""
    ensures outcome.Failed? && (outcome.serverMessage.None? || outcome.serverMessage.value == "")
            ==> r == Rejected(DetailFailed)
  {
    RunThunk(outcome, DetailFailed)
  }

  /** Every entry is a non-empty, already trimmed query. */
  predicate AllTrimmed(s: seq<string>) {
    forall i :: 0 <= i < |s| ==> s[i] != "" && Trimmed(s[i], JsWhitespace)
  }

  /** What the reducer keeps true of the history from the initial (empty) one on. */
  predicate WellFormedHistory(h: seq<string>) {
    |h| <= HistoryLimit && Distinct(h) && AllTrimmed(h)
  }

  /**
   * The history after `addToSearchHistory(payload)`: the trimmed query goes in front and
   * the list is cut to `HistoryLimit`, unless the query is empty or already present, in
   * which case nothing changes (an old entry is not moved to the front).
   */
  function AddedToHistory(history: seq<string>, payload: string): (r: seq<string>)
    ensures |r| <= HistoryLimit || r == history
    ensures var q := JsTrim(payload);
      if q != "" && q !in history then
        && |r| == (if |history| < HistoryLimit then |history| + 1 else HistoryLimit)
        && r[0] == q
        && (forall i :: 1 <= i < |r| ==> r[i] == history[i - 1])
      else r == history
  {
    var query := JsTrim(payload);
    if query != "" && query !in history then
      var extended := [query] + history;
      extended[..if |extended| < HistoryLimit then |extended| else HistoryLimit]
    else
      history
  }

  /** A history without repeated entries keeps none after an addition. */
  lemma AddedToHistoryKeepsDistinct(history: seq<string>, payload: string)
    requires Distinct(history)
    ensures Distinct(AddedToHistory(history, payload))
  {
    var r := AddedToHistory(history, payload);
    var q := JsTrim(payload);
    if q != "" && q !in history {
      forall i, j | 0 <= i < j < |r| ensures r[i] != r[j] {
        if i == 0 {
          assert r[j] == history[j - 1];
        } else {
          assert r[i] == history[i - 1] && r[j] == history[j - 1];
        }
      }
    }
  }

  /** Entries stay trimmed and non-empty: what goes in is a trimmed non-empty query. */
  lemma AddedToHistoryKeepsTrimmed(history: seq<string>, payload: string)
    requires AllTrimmed(history)
    ensures AllTrimmed(AddedToHistory(history, payload))
  {
    var r := AddedToHistory(history, payload);
    var q := JsTrim(payload);
    if q != "" && q !in history {
      forall i | 0 <= i < |r| ensures r[i] != "" && Trimmed(r[i], JsWhitespace) {
        if i > 0 { assert r[i] == history[i - 1]; }
      }
    }
  }

  lemma AddedToHistoryKeepsWellFormed(history: seq<string>, payload: string)
    requires WellFormedHistory(history)
    ensures WellFormedHistory(AddedToHistory(history, payload))
  {
    AddedToHistoryKeepsDistinct(history, payload);
    AddedToHistoryKeepsTrimmed(history, payload);
  }

  /** The store. The reducers assign the fields of the state one after another. */
  class MovieStore {
    var searchResults: seq<MovieListItem>
    var selectedMovie: Option<MovieDetail>
    var searchQuery: string
    var totalResults: string
    var isLoading: bool
    var isLoadingDetail: bool
    var error: Option<string>
    var searchHistory: seq<string>

    /** The state record the store currently holds. */
    function State(): MovieState
      reads this
    {
      MovieState(searchResults, selectedMovie, searchQuery, totalResults,
                 isLoading, isLoadingDetail, error, searchHistory)
    }

    ghost predicate Valid()
      reads this
    {
      WellFormedHistory(searchHistory)
    }

    /** The slice's `initialState`. */
    constructor ()
      ensures Valid() && State() == InitialState
    {
      searchResults := [];
      selectedMovie := None;
      searchQuery := "";
      totalResults := "0";
      isLoading := false;
      isLoadingDetail := false;
      error := None;
      searchHistory := [];
    }

    method SetSearchQuery(query: string)
      requires Valid()
      modifies this
      ensures Valid() && State() == old(State()).(searchQuery := query)
    {
      searchQuery := query;
    }

    method ClearSearchResults()
      requires Valid()
      modifies this
      ensures Valid() && State() == old(State()).(searchResults := [], totalResults := "0", error := None)
    {
      searchResults := [];
      totalResults := "0";
      error := None;
    }

    /** Clears the selection and the error; nothing else, in particular no loading flag. */
    method ClearSelectedMovie()
      requires Valid()
      modifies this
      ensures Valid() && State() == old(State()).(selectedMovie := None, error := None)
    {
      selectedMovie := None;
      error := None;
    }

    method AddToSearchHistory(payload: string)
      requires Valid()
      modifies this
      ensures Valid()
      ensures State() == old(State()).(searchHistory := AddedToHistory(old(searchHistory), payload))
    {
      AddedToHistoryKeepsWellFormed(searchHistory, payload);
      var query := JsTrim(payload);
      if query != "" && query !in searchHistory {
        searchHistory := AddedToHistory(searchHistory, payload);
      }
    }

    method ClearError()
      requires Valid()
      modifies this
      ensures Valid() && State() == old(State()).(error := None)
    {
      error := None;
    }

    method SearchPending()
      requires Valid()
      modifies this
      ensures Valid() && State() == old(State()).(isLoading := true, error := None)
    {
      isLoading := true;
      error := None;
    }

    /**
     * A search response with `Response == "True"` supplies the results (none when the
     * list is absent) and the reported count, and leaves `error` as it is; any other
     * response empties the results and reports "No movies found".
     */
    method SearchFulfilled(payload: MovieSearchResponse)
      requires Valid()
      modifies this
      ensures Valid()
      ensures payload.response == "True" ==>
        State() == old(State()).(isLoading := false, searchResults := payload.search.GetOr([]),
                                 totalResults := payload.totalResults)
      ensures payload.response != "True" ==>
        State() == old(State()).(isLoading := false, searchResults := [], totalResults := "0",
                                 error := Some(NoMoviesFound))
    {
      isLoading := false;
      if payload.response == "True" {
        searchResults := payload.search.GetOr([]);
        totalResults := payload.totalResults;
      } else {
        searchResults := [];
        totalResults := "0";
        error := Some(NoMoviesFound);
      }
    }

    method SearchRejected(reason: string)
      requires Valid()
      modifies this
      ensures Valid()
      ensures State() == old(State()).(isLoading := false, error := Some(reason), searchResults := [], totalResults := "0")
    {
      isLoading := false;
      error := Some(reason);
      searchResults := [];
      totalResults := "0";
    }

    method FetchDetailPending()
      requires Valid()
      modifies this
      ensures Valid() && State() == old(State()).(isLoadingDetail := true, error := None)
    {
      isLoadingDetail := true;
      error := None;
    }

    method FetchDetailFulfilled(payload: MovieDetail)
      requires Valid()
      modifies this
      ensures Valid() && State() == old(State()).(isLoadingDetail := false, selectedMovie := Some(payload))
    {
      isLoadingDetail := false;
      selectedMovie := Some(payload);
    }

    method FetchDetailRejected(reason: string)
      requires Valid()
      modifies this
      ensures Valid()
      ensures State() == old(State()).(isLoadingDetail := false, error := Some(reason), selectedMovie := None)
    {
      isLoadingDetail := false;
      error := Some(reason);
      selectedMovie := None;
    }

    /**
     * One whole search request: pending, then the one action its outcome leads to.
     * Afterwards the loading flag is down, and the results, the count and the error are
     * those of the outcome; the query, the selection and the history are untouched.
     */
    method SearchMovies(outcome: HttpOutcome<MovieSearchResponse>)
      requires Valid()
      modifies this
      ensures Valid() && !isLoading
      ensures searchQuery == old(searchQuery) && selectedMovie == old(selectedMovie)
      ensures isLoadingDetail == old(isLoadingDetail) && searchHistory == old(searchHistory)
      ensures outcome.Responded? && outcome.data.response == "True" ==>
        searchResults == outcome.data.search.GetOr([]) && totalResults == outcome.data.totalResults && error == None
      ensures outcome.Responded? && outcome.data.response != "True" ==>
        searchResults == [] && totalResults == "0" && error == Some(NoMoviesFound)
      ensures outcome.Failed? ==> searchResults == [] && totalResults == "0"
      ensures outcome.Failed? && outcome.serverMessage.Some? && outcome.serverMessage.value != "" ==>
        error == outcome.serverMessage
      ensures outcome.Failed? && (outcome.serverMessage.None? || outcome.serverMessage.value == "") ==>
        error == Some(SearchFailed)
    {
      SearchPending();
      match SearchMoviesThunk(outcome)
      case Fulfilled(payload) => SearchFulfilled(payload);
      case Rejected(reason) => SearchRejected(reason);
    }

    /**
     * One whole detail request: pending, then fulfilled (the detail becomes the selection,
     * the error stays cleared) or rejected (no selection, the server's message or the
     * fallback as error).
     */
    method FetchMovieDetail(outcome: HttpOutcome<MovieDetail>)
      requires Valid()
      modifies this
      ensures Valid() && !isLoadingDetail
      ensures searchQuery == old(searchQuery) && searchResults == old(searchResults)
      ensures totalResults == old(totalResults) && isLoading == old(isLoading)
      ensures searchHistory == old(searchHistory)
      ensures outcome.Responded? ==> selectedMovie == Some(outcome.data) && error == None
      ensures outcome.Failed? ==> selectedMovie == None
      ensures outcome.Failed? && outcome.serverMessage.Some? && outcome.serverMessage.value != "" ==>
        error == outcome.serverMessage
      ensures outcome.Failed? && (outcome.serverMessage.None? || outcome.serverMessage.value == "") ==>
        error == Some(DetailFailed)
    {
      FetchDetailPending();
      match FetchMovieDetailThunk(outcome)
      case Fulfilled(payload) => FetchDetailFulfilled(payload);
      case Rejected(reason) => FetchDetailRejected(reason);
    }
  }

  /** The slice's test of a duplicate: the history stays as it was, in the same order. */
  lemma DuplicateQueryExample()
    ensures AddedToHistory(["batman", "superman"], "batman") == ["batman", "superman"]
  {
    assert Trimmed("batman", JsWhitespace);
  }

  /** The slice's test of a padded query: it is stored trimmed. */
  lemma PaddedQueryExample()
    ensures AddedToHistory([], "  batman  ") == ["batman"]
  {
    TrimDropsFirst("  batman  ", JsWhitespace);
    assert "  batman  "[1..] == " batman  ";
    TrimDropsFirst(" batman  ", JsWhitespace);
    assert " batman  "[1..] == "batman  ";
    TrimDropsLast("batman  ", JsWhitespace);
    assert "batman  "[..7] == "batman ";
    TrimDropsLast("batman ", JsWhitespace);
    assert "batman "[..6] == "batman";
    assert Trimmed("batman", JsWhitespace);
  }

  /** The slice's test of an empty query: nothing is added. */
  lemma EmptyQueryExample()
    ensures AddedToHistory([], "") == []
  {
  }
}
