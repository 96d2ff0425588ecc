# Movie search: store slices and backend cache, in Dafny

This project models the state-handling core of a small movie-search application:

- **The browser's movie store** (`movieSlice.ts`). This is a Redux slice over one `MovieState` record. Its synchronous reducers change fields in place, and the store runs the pending / fulfilled / rejected phases of two asynchronous requests: a search and a detail fetch. The search history is a most-recent-first list of trimmed queries with no duplicates and at most 10 entries.
- **The browser's UI preferences** (`uiSlice.ts`). This is a five-field record. Every reducer writes the whole record to local storage under the key `"UIState"` and ignores write failures. At start-up the record is read back, or a fixed default is used.
- **The backend's read-through cache** (`MovieService.java`). Searches and detail look-ups are answered from two repositories when possible. Otherwise the external movie API is asked. A successful answer is validated, trimmed and stored, then returned as it came.

Files:

| file | contents |
|---|---|
| `wrappers.dfy` | the `Option` type |
| `text.dfy` | trimming, defined once for JavaScript's white-space set and once for Java's |
| `movie_slice.dfy` | module `MovieSlice`: the `MovieStore` class, the history function and the request thunks |
| `ui_slice.dfy` | module `UiSlice`: a failing-capable `LocalStorage` class and the `UiStore` class |
| `entities.dfy` | the backend entities and API transfer objects, as datatypes |
| `movie_service.dfy` | module `MovieService`: the API as a call-counting oracle, the service class, and the specification functions of what caching does to the repositories |

The two repositories are maps:

- movies by `imdbID`;
- searches by their text, each holding the ordered list of its result ids.

`WellKeyed` is the invariant of the movie repository: every movie is stored under its own id, is trimmed, and has its descriptive fields either all set or all null. `QueriesResolve` is the invariant of the search repository: every result id names a stored movie.

Where the code and the project's tests disagree, the model follows the code. The movie-slice tests expect several things the slice does not do:

- favourites;
- a per-id detail cache (`fetchedMovies`);
- deduplicated search results;
- a search history persisted in local storage;
- a history limit of 20.

None of these are modelled; the history limit in the model is the code's 10.

## Model

| member | source | states |
|---|---|---|
| Text.Trim | frontend/src/store/slices/movieSlice.ts:73 | Trimming gives an empty string exactly when the input is all white space. The result never starts or ends with white space. A string with no white space at either end is returned unchanged. |
| Text.TrimSplits | frontend/src/store/slices/movieSlice.ts:73 | Only white space is removed: the input is a blank prefix, then the trimmed text, then a blank suffix. |
| Text.TrimIdempotent | frontend/src/store/slices/movieSlice.ts:73 | Trimming twice is the same as trimming once. This holds for both JavaScript's and Java's white space. |
| MovieSlice.RunThunk | frontend/src/store/slices/movieSlice.ts:10-19 | A response fulfils the request with exactly its body; a failure rejects it. The rejection reason is the server's message when that is present and non-empty. Otherwise it is the fallback text at lines 17 and 29. |
| MovieSlice.SearchMoviesThunk | frontend/src/store/slices/movieSlice.ts:8-20 | `searchMovies` is fulfilled exactly when the server responded. A rejection always carries a non-empty reason. With no server message, or an empty one, the reason is "Failed to search movies". |
| MovieSlice.FetchMovieDetailThunk | frontend/src/store/slices/movieSlice.ts:22-32 | `fetchMovieDetail` is fulfilled exactly when the server responded. A rejection always carries a non-empty reason. With no server message, or an empty one, the reason is "Failed to fetch movie details". |
| MovieSlice.AddedToHistory | frontend/src/store/slices/movieSlice.ts:72-77 | If the trimmed query is non-empty and new, it goes in front and the old entries follow in order, cut to 10. Otherwise the history is returned unchanged, with no move to the front. The result has at most 10 entries unless it is the unchanged history. |
| MovieSlice.AddedToHistoryKeepsDistinct | frontend/src/store/slices/movieSlice.ts:74-75 | A history without repeated entries still has none after an addition. |
| MovieSlice.AddedToHistoryKeepsTrimmed | frontend/src/store/slices/movieSlice.ts:73-75 | Every entry stays non-empty and trimmed. |
| MovieSlice.AddedToHistoryKeepsWellFormed | frontend/src/store/slices/movieSlice.ts:72-77 | The history invariant (at most 10 entries, no duplicates, all trimmed) is preserved by every addition. |
| MovieSlice.MovieStore.constructor | frontend/src/store/slices/movieSlice.ts:45-54 | The store starts in the slice's initial state, which satisfies the history invariant. |
| MovieSlice.MovieStore.SetSearchQuery | frontend/src/store/slices/movieSlice.ts:60-62 | Only the query changes. |
| MovieSlice.MovieStore.ClearSearchResults | frontend/src/store/slices/movieSlice.ts:63-67 | Results become empty, the count becomes "0" and the error is cleared. Nothing else changes. |
| MovieSlice.MovieStore.ClearSelectedMovie | frontend/src/store/slices/movieSlice.ts:68-71 | The selection and the error are cleared. Nothing else changes. |
| MovieSlice.MovieStore.AddToSearchHistory | frontend/src/store/slices/movieSlice.ts:72-77 | Only the history changes, to `AddedToHistory` of the old one, and the invariant is kept. |
| MovieSlice.MovieStore.ClearError | frontend/src/store/slices/movieSlice.ts:78-80 | Only the error is cleared. |
| MovieSlice.MovieStore.SearchPending | frontend/src/store/slices/movieSlice.ts:85-88 | The search loading flag goes up and the error is cleared. Nothing else changes. |
| MovieSlice.MovieStore.SearchFulfilled | frontend/src/store/slices/movieSlice.ts:89-100 | If `Response` is "True", the results are the payload's list (empty when absent) and the count is the payload's count. Otherwise the results are empty, the count is "0" and the error is "No movies found". The loading flag goes down in both cases. |
| MovieSlice.MovieStore.SearchRejected | frontend/src/store/slices/movieSlice.ts:101-106 | The flag goes down, the reason becomes the error, and the results and count are reset. |
| MovieSlice.MovieStore.FetchDetailPending | frontend/src/store/slices/movieSlice.ts:110-113 | The detail loading flag goes up and the error is cleared. |
| MovieSlice.MovieStore.FetchDetailFulfilled | frontend/src/store/slices/movieSlice.ts:114-117 | The flag goes down and the detail becomes the selection. |
| MovieSlice.MovieStore.FetchDetailRejected | frontend/src/store/slices/movieSlice.ts:118-122 | The flag goes down, the reason becomes the error and the selection is cleared. |
| MovieSlice.MovieStore.SearchMovies | frontend/src/store/slices/movieSlice.ts:85-106 | A whole search request ends with the loading flag down. The results, count and error are those of its outcome, with "Failed to search movies" when the server gave no message. The query, selection and history are untouched. |
| MovieSlice.MovieStore.FetchMovieDetail | frontend/src/store/slices/movieSlice.ts:110-122 | A whole detail request ends with the flag down. The selection is the detail, or is cleared on failure, with the server's message or "Failed to fetch movie details" as error. The search fields are untouched. |
| MovieSlice.DuplicateQueryExample | frontend/src/store/slices/__tests__/movieSlice.test.ts:155-163 | Adding "batman" to ["batman", "superman"] leaves the history as it was. |
| MovieSlice.PaddedQueryExample | frontend/src/store/slices/__tests__/movieSlice.test.ts:165-169 | "  batman  " (two spaces on each side) is stored as "batman". |
| MovieSlice.EmptyQueryExample | frontend/src/store/slices/__tests__/movieSlice.test.ts:171-175 | An empty query adds nothing. |
| UiSlice.Toggled | frontend/src/store/slices/uiSlice.ts:48 | The toggled theme is always the other theme. |
| UiSlice.ToggledTwice | frontend/src/store/slices/uiSlice.ts:48 | Toggling twice restores the theme. |
| UiSlice.LocalStorage.GetItem | frontend/src/store/slices/uiSlice.ts:24 | A read throws when reading fails, reports a missing key, or returns the stored entry. It changes nothing. |
| UiSlice.LocalStorage.SetItem | frontend/src/store/slices/uiSlice.ts:16 | A write stores the entry unless it throws, and every attempt is counted. |
| UiSlice.SaveUiStateToStorage | frontend/src/store/slices/uiSlice.ts:14-20 | Exactly one write of the record is attempted under "UIState". A failure is swallowed and leaves the storage as it was. |
| UiSlice.LoadUiStateFromStorage | frontend/src/store/slices/uiSlice.ts:22-39 | A readable stored record is returned as saved. A missing or unreadable entry, or a failing read, gives the default {light, closed, page 1, 10 per page, history hidden}. Loading never writes. |
| UiSlice.UiStore.constructor | frontend/src/store/slices/uiSlice.ts:41 | The initial state is what loading from storage gives. |
| UiSlice.UiStore.ToggleTheme | frontend/src/store/slices/uiSlice.ts:47-50 | Only the theme changes, to the other one, and the new record is saved once. |
| UiSlice.UiStore.ToggleSidebar | frontend/src/store/slices/uiSlice.ts:51-54 | Only the sidebar flag flips, and the new record is saved once. |
| UiSlice.UiStore.SetCurrentPage | frontend/src/store/slices/uiSlice.ts:55-58 | Any page number is stored unchecked and nothing else changes. The new record is saved once. |
| UiSlice.UiStore.SetItemsPerPage | frontend/src/store/slices/uiSlice.ts:59-63 | The page size is set and the page goes back to 1, whatever it was. The new record is saved once. |
| UiSlice.UiStore.ToggleSearchHistory | frontend/src/store/slices/uiSlice.ts:64-67 | Only the history-visibility flag flips, and the new record is saved once. |
| UiSlice.ReloadAfterToggle | frontend/src/store/slices/uiSlice.ts:14-41 | With working storage, loading after `toggleTheme` gives back exactly the record in memory. |
| UiSlice.ToggleWithFailingStorage | frontend/src/store/slices/__tests__/uiSlice.test.ts:134-145 | When writes fail, the theme still changes and the storage keeps what it had. |
| UiSlice.ToggleThemeTwice | frontend/src/store/slices/__tests__/uiSlice.test.ts:55-72 | Two toggles restore the whole record and leave two write attempts behind. |
| MovieService.MovieFromItem | backend/src/main/java/com/example/demo/service/MovieService.java:105-113 | The movie saved for a search item has the trimmed id and title, year "N/A" when null, poster "" when null, and the item's type. Every descriptive field is kept from the stored movie, or is null for a new one. A normalised stored movie gives a normalised result. |
| MovieService.MovieFromDetail | backend/src/main/java/com/example/demo/service/MovieService.java:134-147 | The movie saved for a detail response is normalised and has every descriptive field set, to the trimmed value or "". Its plot is therefore never null. |
| MovieService.ConvertToDetailDto | backend/src/main/java/com/example/demo/service/MovieService.java:152-167 | A stored movie is served with `Response` "True" and with its own id, title and plot. |
| MovieService.ServedDetailRecachesUnchanged | backend/src/main/java/com/example/demo/service/MovieService.java:137-165 | A movie cached from a detail response is a valid detail once served. Caching that served detail again reproduces the same movie. |
| MovieService.CacheItem | backend/src/main/java/com/example/demo/service/MovieService.java:100-115 | An invalid item (null or blank id or title) changes nothing. A valid item adds exactly its trimmed id to the keys. The movie saved there has that id and the trimmed title. Its descriptive fields come from the movie looked up under the id as received, untrimmed. Every other stored movie is unchanged. |
| MovieService.CacheItems | backend/src/main/java/com/example/demo/service/MovieService.java:97-121 | Caching a list of items item by item never removes a stored movie. |
| MovieService.NormalisedItems | backend/src/main/java/com/example/demo/service/MovieService.java:100-115 | There is one normalised item per stored result id, in the same order, and each carries that id. |
| MovieService.CachedResponse | backend/src/main/java/com/example/demo/service/MovieService.java:72-89 | The rebuilt response has one item per stored result, carrying the id of the movie stored under it. The stored count is kept, and `Response` is "True" exactly when the stored flag is set. |
| MovieService.CacheHit | backend/src/main/java/com/example/demo/service/MovieService.java:56 | A look-up is a cache hit exactly when a movie is stored under the id and it has a plot. On a hit, the served detail has a plot. |
| MovieService.CacheItemKeepsWellKeyed | backend/src/main/java/com/example/demo/service/MovieService.java:98-115 | Caching one search item keeps the movie repository well keyed and loses no key. |
| MovieService.CacheItemsKeepsWellKeyed | backend/src/main/java/com/example/demo/service/MovieService.java:97-121 | The same holds for a whole list of items. |
| MovieService.ResultIds | backend/src/main/java/com/example/demo/service/MovieService.java:97-121 | There is at most one result per item. |
| MovieService.CachedItems | backend/src/main/java/com/example/demo/service/MovieService.java:75-83 | The rebuilt list has one item per stored result. |
| MovieService.ResultIdsStored | backend/src/main/java/com/example/demo/service/MovieService.java:97-124 | Every stored result id names a movie that the same caching saved. |
| MovieService.CacheItemStores | backend/src/main/java/com/example/demo/service/MovieService.java:105-115 | A valid item's movie is saved under its trimmed id and reads back as the normalised item. Every other key is left as it was. |
| MovieService.CacheRoundTrip | backend/src/main/java/com/example/demo/service/MovieService.java:72-125 | Suppose the valid items of a search have distinct ids. Then rebuilding the response from what was stored gives exactly those items, normalised, in the order the result rows were saved. That order is the input order. Invalid items are dropped. |
| MovieService.CacheItemAddsNoPlot | backend/src/main/java/com/example/demo/service/MovieService.java:105-115 | Caching a search item never sets a plot: each movie has no plot or the plot stored before under its key. |
| MovieService.CacheItemsAddsNoPlot | backend/src/main/java/com/example/demo/service/MovieService.java:97-121 | The same for a whole search. A movie known only from searches is therefore never a detail cache hit. |
| MovieService.RecachingKeepsDetails | backend/src/main/java/com/example/demo/service/MovieService.java:106-115 | Re-caching a stored movie from a search item carrying the stored id overwrites only id, title, year, type and poster. The descriptive fields stay. |
| MovieService.PaddedIdClearsDetails | backend/src/main/java/com/example/demo/service/MovieService.java:106-115 | An item whose id has surrounding white space is looked up untrimmed, so it finds nothing. A fresh movie with no plot then replaces whatever was stored under the trimmed id. |
| MovieService.CacheDetail | backend/src/main/java/com/example/demo/service/MovieService.java:127-150 | An invalid detail (null or blank id or title) leaves the repository unchanged. A valid one stores its normalised movie under the trimmed id. |
| MovieService.CacheDetailKeepsWellKeyed | backend/src/main/java/com/example/demo/service/MovieService.java:127-150 | Caching a detail keeps the movie repository well keyed. |
| MovieService.CachedDetailIsHit | backend/src/main/java/com/example/demo/service/MovieService.java:56 | After a valid detail is cached, its trimmed id is a cache hit. |
| MovieService.OmdbApiService.SearchMovies | backend/src/main/java/com/example/demo/service/OmdbApiService.java:25-30 | The API's search answer is the oracle's, and the call is counted. |
| MovieService.OmdbApiService.GetMovieById | backend/src/main/java/com/example/demo/service/OmdbApiService.java:32-37 | The API's detail answer is the oracle's, and the call is counted. |
| MovieService.MovieService.constructor | backend/src/main/java/com/example/demo/service/MovieService.java:23-30 | The service starts with empty repositories, which satisfy both invariants. |
| MovieService.MovieService.SearchMovies | backend/src/main/java/com/example/demo/service/MovieService.java:32-50 | A stored search is rebuilt from the repositories with no API call and no change. Otherwise the API is called once and its answer is returned as it came. The answer is stored only when present with `Response` "True". Otherwise both repositories are unchanged. The invariants hold throughout. |
| MovieService.MovieService.GetMovieById | backend/src/main/java/com/example/demo/service/MovieService.java:52-70 | A stored movie with a plot is served without an API call. Otherwise the API is called once and its answer is returned as it came. The answer is cached only when present with `Response` "True". The search repository never changes. |
| MovieService.MovieService.BuildResponseFromCache | backend/src/main/java/com/example/demo/service/MovieService.java:72-89 | One item per stored result, in the order the result rows were saved, read from the current movies. The stored count is kept, and `Response` is "True" exactly when the stored flag is set. |
| MovieService.MovieService.CacheSearchResults | backend/src/main/java/com/example/demo/service/MovieService.java:91-125 | The movie repository becomes the item-by-item caching of the response's items. The search is stored as successful, with the API's count and the ids of the valid items in order. Both invariants are kept. |
| MovieService.MovieService.CacheMovieDetails | backend/src/main/java/com/example/demo/service/MovieService.java:127-150 | The movie repository becomes `CacheDetail` of the old one, the searches are untouched and the invariants are kept. |
| MovieService.GetMovieByIdTwice | backend/src/main/java/com/example/demo/service/MovieService.java:52-70 | Suppose the API's answer is a valid detail carrying the requested id. Then two look-ups ask the API at most once, and the second is served from the cache. |
| MovieService.SearchMoviesTwice | backend/src/main/java/com/example/demo/service/MovieService.java:32-125 | A new successful search asked twice calls the API once. When the valid items have distinct ids, the second answer lists exactly those items, normalised, in the order the result rows were saved (the API's order), with the API's count and "True". |

## Left out

- HTTP transport is not modelled: axios, URL encoding, WebClient and `.block()`. Each request is an abstract outcome (frontend) or an oracle (backend).
- An exception thrown by `.block()` is not modelled. An empty body is `None`.
- JSON encoding and decoding are not modelled. A storage entry holds the record itself or is unreadable. A stored text that parses to something other than a UI record is outside the model. For example, the source returns the parsed `null` itself as the state.
- `console.error` logging is left out.
- Concurrency is left out. Overlapping requests in the browser and transactions in the backend are each treated as one atomic step.
- Timestamps (`@PrePersist`/`@PreUpdate`) and database ids are not modelled. The movie that `cacheMovieDetails` looks up first only contributes timestamps, so it is not modelled either.
- The Spring controller, framework annotations and the JPA query are not modelled; repositories are maps.
- The model assumes a stored search's result rows are read back to `buildResponseFromCache` in the order they were saved. The source does not guarantee that order. `SearchQuery.searchResults` (backend/src/main/java/com/example/demo/entity/SearchQuery.java:24-25) is a `@OneToMany` list with no `@OrderBy` or `@OrderColumn`. The fetch query (backend/src/main/java/com/example/demo/repository/SearchQueryRepository.java:13-14) has no `ORDER BY`. A database may return the rows in another order. `SearchQuery.results`, `MovieService.CacheRoundTrip`, `MovieService.MovieService.BuildResponseFromCache` and `MovieService.SearchMoviesTwice` speak of the saved order under this assumption.
- React components and pages are rendering only and are not modelled.
- The test-only slice behaviour is not modelled: favourites, the `fetchedMovies` cache, deduplicated results, history persistence and a history limit of 20. The slice's code has none of these.
- MovieService.MovieService.CacheSearchResults: requires that the search text is not stored yet. The only caller checks this, and the column is unique, so the source would fail on a duplicate.
- Integer widths are not modelled. Page numbers and sizes are unbounded `int`s; JavaScript numbers are floating point.
- The external API's item type is modelled as a four-value `MovieType`. `MovieType.java` and `MovieListItemDto.java` are not part of this model; their shapes follow their use in `MovieService.java`.
