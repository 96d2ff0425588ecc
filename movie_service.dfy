/**
 * The backend's read-through cache in front of the external movie API. Searches and
 * detail look-ups are answered from two repositories when possible; otherwise the API is
 * asked and a successful answer is validated, normalised and stored.
 *
 * The repositories are maps: movies by `imdbID`, searches by their text. The API is an
 * oracle that counts how often it is called.
 */
module MovieService {
  import opened Wrappers
  import opened Text
  import opened Entities

  // ---------------------------------------------------------------------------
  // Validation and normalisation of API records

  /** Not null and not blank after Java's `trim()`. */
  predicate Present(s: Option<string>) {
    s.Some? && JavaTrim(s.value) != ""
  }

  /** The trimmed string, or `default` for null. */
  function TrimmedOr(s: Option<string>, default: string): string {
    if s.Some? then JavaTrim(s.value) else default
  }

  /** No character at or below U+0020 at either end. */
  predicate IsTrimmed(s: string) {
    Trimmed(s, JavaWhitespace)
  }

  /** A value that is already trimmed comes through `TrimmedOr` as it is. */
  lemma TrimmedOrOfTrimmed(s: Option<string>, default: string)
    requires s.Some? && IsTrimmed(s.value)
    ensures TrimmedOr(s, default) == s.value
  {
  }

  /** Items of a search that the cache accepts: id and title present. */
  predicate ValidItem(item: MovieListItemDto) {
    Present(item.imdbID) && Present(item.title)
  }

  /** Detail responses that the cache accepts: id and title present. */
  predicate ValidDetail(d: MovieDetailDto) {
    Present(d.imdbID) && Present(d.title)
  }

  predicate TrimmedOrNull(s: Option<string>) {
    s.None? || IsTrimmed(s.value)
  }

  /** What every movie the service stores looks like: no surrounding white space, no blank id or title. */
  predicate Normalised(m: Movie) {
    && m.imdbID != "" && IsTrimmed(m.imdbID)
    && m.title != "" && IsTrimmed(m.title)
    && IsTrimmed(m.year) && IsTrimmed(m.poster)
    && TrimmedOrNull(m.plot) && TrimmedOrNull(m.director) && TrimmedOrNull(m.actors)
    && TrimmedOrNull(m.runtime) && TrimmedOrNull(m.genre) && TrimmedOrNull(m.imdbRating)
  }

  /** The descriptive fields are all set (a detail response was cached) or all null. */
  predicate DetailsComplete(m: Movie) {
    || (m.plot.Some? && m.director.Some? && m.actors.Some? && m.runtime.Some? && m.genre.Some? && m.imdbRating.Some?)
    || (m.plot.None? && m.director.None? && m.actors.None? && m.runtime.None? && m.genre.None? && m.imdbRating.None?)
  }

  /** The descriptive fields of `m` are those of `stored`, or all null when there is none. */
  predicate DetailsFrom(m: Movie, stored: Option<Movie>) {
    if stored.Some? then
      && m.plot == stored.value.plot && m.director == stored.value.director
      && m.actors == stored.value.actors && m.runtime == stored.value.runtime
      && m.genre == stored.value.genre && m.imdbRating == stored.value.imdbRating
    else
      && m.plot.None? && m.director.None? && m.actors.None?
      && m.runtime.None? && m.genre.None? && m.imdbRating.None?
  }

  /**
   * The movie `cacheSearchResults` saves for a search item: the stored movie found under
   * the item's id (or a new one) with id, title, year, type and poster overwritten by the
   * item's trimmed values (year "N/A" and poster "" for null) and every descriptive field
   * kept as it was.
   */
  function MovieFromItem(stored: Option<Movie>, item: MovieListItemDto): (m: Movie)
    requires ValidItem(item)
    ensures DetailsFrom(m, stored)
    ensures (stored.Some? ==> Normalised(stored.value) && DetailsComplete(stored.value))
            ==> Normalised(m) && DetailsComplete(m)
    ensures m.imdbID == JavaTrim(item.imdbID.value) && m.title == JavaTrim(item.title.value)
    ensures m.year == TrimmedOr(item.year, "N/A") && m.kind == item.kind
    ensures m.poster == TrimmedOr(item.poster, "")
  {
    var base := if stored.Some? then stored.value
                else Movie("", "", "", None, "", None, None, None, None, None, None);
    base.(imdbID := JavaTrim(item.imdbID.value),
          title := JavaTrim(item.title.value),
          year := TrimmedOr(item.year, "N/A"),
          kind := item.kind,
          poster := TrimmedOr(item.poster, ""))
  }

  /**
   * The movie `cacheMovieDetails` saves: every field comes from the response, trimmed;
   * a null year becomes "N/A" and any other null string "". The descriptive fields are
   * therefore never null, which is what makes the next look-up a cache hit. (The stored
   * movie the source looks up first contributes nothing but its timestamps.)
   */
  function MovieFromDetail(d: MovieDetailDto): (m: Movie)
    requires ValidDetail(d)
    ensures Normalised(m) && DetailsComplete(m) && m.plot.Some?
    ensures m.imdbID == JavaTrim(d.imdbID.value) && m.title == JavaTrim(d.title.value)
    ensures m.year == TrimmedOr(d.year, "N/A") && m.kind == d.kind
    ensures m.poster == TrimmedOr(d.poster, "")
    ensures m.plot == Some(TrimmedOr(d.plot, "")) && m.director == Some(TrimmedOr(d.director, ""))
    ensures m.actors == Some(TrimmedOr(d.actors, "")) && m.runtime == Some(TrimmedOr(d.runtime, ""))
    ensures m.genre == Some(TrimmedOr(d.genre, "")) && m.imdbRating == Some(TrimmedOr(d.imdbRating, ""))
  {
    Movie(JavaTrim(d.imdbID.value), JavaTrim(d.title.value), TrimmedOr(d.year, "N/A"), d.kind,
          TrimmedOr(d.poster, ""),
          Some(TrimmedOr(d.plot, "")), Some(TrimmedOr(d.director, "")), Some(TrimmedOr(d.actors, "")),
          Some(TrimmedOr(d.runtime, "")), Some(TrimmedOr(d.genre, "")), Some(TrimmedOr(d.imdbRating, "")))
  }

  /** `convertToDetailDto`: the stored fields, always marked as a successful response. */
  function ConvertToDetailDto(m: Movie): (d: MovieDetailDto)
    ensures d.response == Some("True")
    ensures d.imdbID == Some(m.imdbID) && d.title == Some(m.title) && d.plot == m.plot
  {
    MovieDetailDto(Some(m.title), Some(m.year), Some(m.imdbID), m.kind, Some(m.poster), m.plot,
                   m.director, m.actors, m.runtime, m.genre, m.imdbRating, Some("True"))
  }

  /**
   * Serving is faithful: a movie cached from a detail response, served as a DTO and cached
   * again, is the same movie.
   */
  lemma ServedDetailRecachesUnchanged(m: Movie)
    requires Normalised(m) && DetailsComplete(m) && m.plot.Some?
    ensures ValidDetail(ConvertToDetailDto(m))
    ensures MovieFromDetail(ConvertToDetailDto(m)) == m
  {
    var d := ConvertToDetailDto(m);
    TrimmedOrOfTrimmed(d.imdbID, "");
    TrimmedOrOfTrimmed(d.title, "");
    TrimmedOrOfTrimmed(d.year, "N/A");
    TrimmedOrOfTrimmed(d.poster, "");
    TrimmedOrOfTrimmed(d.plot, "");
    TrimmedOrOfTrimmed(d.director, "");
    TrimmedOrOfTrimmed(d.actors, "");
    TrimmedOrOfTrimmed(d.runtime, "");
    TrimmedOrOfTrimmed(d.genre, "");
    TrimmedOrOfTrimmed(d.imdbRating, "");
  }

  /** The list item `buildResponseFromCache` makes of a stored movie. */
  function ItemOf(m: Movie): MovieListItemDto {
    MovieListItemDto(Some(m.title), Some(m.year), Some(m.imdbID), m.kind, Some(m.poster))
  }

  /** The form in which a valid search item comes back out of the cache. */
  function NormalisedItem(item: MovieListItemDto): MovieListItemDto
    requires ValidItem(item)
  {
    MovieListItemDto(Some(JavaTrim(item.title.value)), Some(TrimmedOr(item.year, "N/A")),
                     Some(JavaTrim(item.imdbID.value)), item.kind, Some(TrimmedOr(item.poster, "")))
  }

  // ---------------------------------------------------------------------------
  // The repositories and what caching does to them

  function Lookup(movies: map<string, Movie>, id: string): Option<Movie> {
    if id in movies then Some(movies[id]) else None
  }

  /** Every movie is stored under its own id, normalised, with complete or absent details. */
  predicate WellKeyed(movies: map<string, Movie>) {
    forall k :: k in movies ==> movies[k].imdbID == k && Normalised(movies[k]) && DetailsComplete(movies[k])
  }

  /** Every stored search is filed under its text and refers only to stored movies. */
  predicate QueriesResolve(movies: map<string, Movie>, queries: map<string, SearchQuery>) {
    forall t :: t in queries ==>
      && queries[t].searchText == t
      && forall i :: 0 <= i < |queries[t].results| ==> queries[t].results[i] in movies
  }

  /**
   * The movie repository after one item of a search is cached: invalid items are skipped;
   * a valid one is looked up by its id AS RECEIVED and saved under its trimmed id.
   */
  function CacheItem(movies: map<string, Movie>, item: MovieListItemDto): (r: map<string, Movie>)
    ensures !ValidItem(item) ==> r == movies
    ensures ValidItem(item) ==> r.Keys == movies.Keys + {JavaTrim(item.imdbID.value)}
    ensures ValidItem(item) ==>
      var k := JavaTrim(item.imdbID.value);
      && r[k].imdbID == k && r[k].title == JavaTrim(item.title.value)
      && DetailsFrom(r[k], Lookup(movies, item.imdbID.value))
      && forall other :: other in movies && other != k ==> r[other] == movies[other]
  {
    if ValidItem(item) then
      var m := MovieFromItem(Lookup(movies, item.imdbID.value), item);
      movies[m.imdbID := m]
    else movies
  }

  lemma CacheItemKeepsWellKeyed(movies: map<string, Movie>, item: MovieListItemDto)
    requires WellKeyed(movies)
    ensures WellKeyed(CacheItem(movies, item))
    ensures movies.Keys <= CacheItem(movies, item).Keys
  {
  }

  /** Stored searches keep resolving while movies are only added or replaced. */
  lemma QueriesResolveGrow(before: map<string, Movie>, after: map<string, Movie>, queries: map<string, SearchQuery>)
    requires QueriesResolve(before, queries) && before.Keys <= after.Keys
    ensures QueriesResolve(after, queries)
  {
  }

  /** The movie repository after the items are cached in order. */
  function CacheItems(movies: map<string, Movie>, items: seq<MovieListItemDto>): (r: map<string, Movie>)
    ensures movies.Keys <= r.Keys
    decreases |items|
  {
    if items == [] then movies
    else CacheItem(CacheItems(movies, items[..|items| - 1]), items[|items| - 1])
  }

  /** Caching search items keeps the repository well keyed and forgets no movie. */
  lemma {:induction false} CacheItemsKeepsWellKeyed(movies: map<string, Movie>, items: seq<MovieListItemDto>)
    requires WellKeyed(movies)
    ensures WellKeyed(CacheItems(movies, items)) && movies.Keys <= CacheItems(movies, items).Keys
    decreases |items|
  {
    if items != [] {
      CacheItemsKeepsWellKeyed(movies, items[..|items| - 1]);
      CacheItemKeepsWellKeyed(CacheItems(movies, items[..|items| - 1]), items[|items| - 1]);
    }
  }

  /** The ids of the `SearchResult` rows: one trimmed id per valid item, in input order. */
  function ResultIds(items: seq<MovieListItemDto>): (r: seq<string>)
    ensures |r| <= |items|
    decreases |items|
  {
    if items == [] then []
    else
      var last := items[|items| - 1];
      ResultIds(items[..|items| - 1]) + (if ValidItem(last) then [JavaTrim(last.imdbID.value)] else [])
  }

  /** The valid items in input order, in the form the cache gives them back. */
  function NormalisedItems(items: seq<MovieListItemDto>): (r: seq<MovieListItemDto>)
    ensures |r| == |ResultIds(items)|
    ensures forall i :: 0 <= i < |r| ==> r[i].imdbID == Some(ResultIds(items)[i])
    decreases |items|
  {
    if items == [] then []
    else
      var last := items[|items| - 1];
      NormalisedItems(items[..|items| - 1]) + (if ValidItem(last) then [NormalisedItem(last)] else [])
  }

  /** Caching one more item of a prefix is one more step of both folds. */
  lemma CacheOneMore(movies: map<string, Movie>, items: seq<MovieListItemDto>, i: nat)
    requires i < |items|
    ensures CacheItems(movies, items[..i + 1]) == CacheItem(CacheItems(movies, items[..i]), items[i])
    ensures ResultIds(items[..i + 1]) ==
      ResultIds(items[..i]) + (if ValidItem(items[i]) then [JavaTrim(items[i].imdbID.value)] else [])
  {
    assert items[..i + 1][..i] == items[..i];
  }

  /** The items for stored result ids, in the order of the ids. */
  function CachedItems(movies: map<string, Movie>, ids: seq<string>): (r: seq<MovieListItemDto>)
    requires forall i :: 0 <= i < |ids| ==> ids[i] in movies
    ensures |r| == |ids|
  {
    seq(|ids|, i requires 0 <= i < |ids| => ItemOf(movies[ids[i]]))
  }

  /** The response `buildResponseFromCache` rebuilds for a stored search. */
  function CachedResponse(movies: map<string, Movie>, q: SearchQuery): (r: MovieSearchResponseDto)
    requires forall i :: 0 <= i < |q.results| ==> q.results[i] in movies
    ensures r.search.Some? && |r.search.value| == |q.results|
    ensures forall i :: 0 <= i < |q.results| ==> r.search.value[i].imdbID == Some(movies[q.results[i]].imdbID)
    ensures r.totalResults == q.totalResults
    ensures r.response == Some("True") <==> q.response
  {
    MovieSearchResponseDto(Some(CachedItems(movies, q.results)), q.totalResults,
                           Some(if q.response then "True" else "False"))
  }

  /** Every result id names a movie that caching the same items stored. */
  lemma {:induction false} ResultIdsStored(movies: map<string, Movie>, items: seq<MovieListItemDto>)
    ensures forall i :: 0 <= i < |ResultIds(items)| ==> ResultIds(items)[i] in CacheItems(movies, items)
    decreases |items|
  {
    if items != [] {
      var init := items[..|items| - 1];
      ResultIdsStored(movies, init);
    }
  }

  /**
   * Caching one valid item stores, under its trimmed id, a movie that reads back as the
   * normalised item, and leaves every other key as it was.
   */
  lemma CacheItemStores(movies: map<string, Movie>, item: MovieListItemDto)
    requires ValidItem(item)
    ensures JavaTrim(item.imdbID.value) in CacheItem(movies, item)
    ensures ItemOf(CacheItem(movies, item)[JavaTrim(item.imdbID.value)]) == NormalisedItem(item)
    ensures forall k :: k in movies && k != JavaTrim(item.imdbID.value) ==>
      k in CacheItem(movies, item) && CacheItem(movies, item)[k] == movies[k]
  {
  }

  lemma CachedItemsSnoc(movies: map<string, Movie>, ids: seq<string>, t: string)
    requires forall i :: 0 <= i < |ids| ==> ids[i] in movies
    requires t in movies
    ensures CachedItems(movies, ids + [t]) == CachedItems(movies, ids) + [ItemOf(movies[t])]
  {
  }

  lemma CachedItemsFrame(a: map<string, Movie>, b: map<string, Movie>, ids: seq<string>)
    requires forall i :: 0 <= i < |ids| ==> ids[i] in a && ids[i] in b && a[ids[i]] == b[ids[i]]
    ensures CachedItems(a, ids) == CachedItems(b, ids)
  {
  }

  /**
   * The round trip of a search through the cache: when the valid items have distinct
   * ids, rebuilding the response from what was stored gives exactly the valid items, in
   * input order, normalised.
   */
  lemma {:induction false} CacheRoundTrip(movies: map<string, Movie>, items: seq<MovieListItemDto>)
    requires Distinct(ResultIds(items))
    ensures forall i :: 0 <= i < |ResultIds(items)| ==> ResultIds(items)[i] in CacheItems(movies, items)
    ensures CachedItems(CacheItems(movies, items), ResultIds(items)) == NormalisedItems(items)
    decreases |items|
  {
    ResultIdsStored(movies, items);
    if items != [] {
      var init, last := items[..|items| - 1], items[|items| - 1];
      var ids0 := ResultIds(init);
      var after := CacheItems(movies, init);
      ResultIdsStored(movies, init);
      if ValidItem(last) {
        var t := JavaTrim(last.imdbID.value);
        var ids := ids0 + [t];
        assert ResultIds(items) == ids;
        assert Distinct(ids0) by {
          assert forall i :: 0 <= i < |ids0| ==> ids[i] == ids0[i];
        }
        assert forall i :: 0 <= i < |ids0| ==> ids0[i] != t by {
          assert forall i :: 0 <= i < |ids0| ==> ids[i] == ids0[i];
          assert ids[|ids0|] == t;
        }
        CacheRoundTrip(movies, init);
        CacheItemStores(after, last);
        var r := CacheItem(after, last);
        assert r == CacheItems(movies, items);
        CachedItemsFrame(r, after, ids0);
        CachedItemsSnoc(r, ids0, t);
        assert CachedItems(r, ids) == CachedItems(after, ids0) + [NormalisedItem(last)];
        assert NormalisedItems(items) == NormalisedItems(init) + [NormalisedItem(last)];
        assert CachedItems(r, ids) == NormalisedItems(items);
      } else {
        assert ResultIds(items) == ids0;
        CacheRoundTrip(movies, init);
      }
    }
  }

  /** One cached item gives a movie with no plot, or keeps the plot stored under its key. */
  lemma CacheItemAddsNoPlot(movies: map<string, Movie>, item: MovieListItemDto)
    requires WellKeyed(movies)
    ensures forall k :: k in CacheItem(movies, item) ==>
      CacheItem(movies, item)[k].plot.None? || (k in movies && CacheItem(movies, item)[k].plot == movies[k].plot)
  {
  }

  /**
   * Searches never invent descriptive fields: after caching search items, a movie has
   * either no plot or the plot it had before under the same id.
   */
  lemma {:induction false} CacheItemsAddsNoPlot(movies: map<string, Movie>, items: seq<MovieListItemDto>)
    requires WellKeyed(movies)
    ensures forall k :: k in CacheItems(movies, items) ==>
      CacheItems(movies, items)[k].plot.None? || (k in movies && CacheItems(movies, items)[k].plot == movies[k].plot)
    decreases |items|
  {
    if items != [] {
      var init := items[..|items| - 1];
      CacheItemsAddsNoPlot(movies, init);
      CacheItemsKeepsWellKeyed(movies, init);
      CacheItemAddsNoPlot(CacheItems(movies, init), items[|items| - 1]);
    }
  }

  /**
   * Re-caching a stored movie from a search keeps its descriptive fields when the item
   * carries the id exactly as stored.
   */
  lemma RecachingKeepsDetails(movies: map<string, Movie>, item: MovieListItemDto)
    requires WellKeyed(movies) && ValidItem(item) && item.imdbID.value in movies
    ensures JavaTrim(item.imdbID.value) == item.imdbID.value
    ensures DetailsFrom(CacheItem(movies, item)[item.imdbID.value], Some(movies[item.imdbID.value]))
  {
  }

  /**
   * An item whose id carries surrounding white space is looked up under the untrimmed id,
   * which is never a stored key; a fresh movie with null descriptive fields then replaces
   * whatever was stored under the trimmed id.
   */
  lemma PaddedIdClearsDetails(movies: map<string, Movie>, item: MovieListItemDto)
    requires WellKeyed(movies) && ValidItem(item)
    requires JavaTrim(item.imdbID.value) != item.imdbID.value
    ensures CacheItem(movies, item)[JavaTrim(item.imdbID.value)].plot.None?
  {
  }

  /** The movie repository after `cacheMovieDetails`: an invalid response changes nothing. */
  function CacheDetail(movies: map<string, Movie>, d: MovieDetailDto): (r: map<string, Movie>)
    ensures !ValidDetail(d) ==> r == movies
    ensures ValidDetail(d) ==> r == movies[JavaTrim(d.imdbID.value) := MovieFromDetail(d)]
  {
    if ValidDetail(d) then
      var m := MovieFromDetail(d);
      movies[m.imdbID := m]
    else movies
  }

  lemma CacheDetailKeepsWellKeyed(movies: map<string, Movie>, d: MovieDetailDto)
    requires WellKeyed(movies)
    ensures WellKeyed(CacheDetail(movies, d))
  {
    if ValidDetail(d) {
      var m := MovieFromDetail(d);
      assert Normalised(m) && DetailsComplete(m);
      forall k | k in CacheDetail(movies, d)
        ensures CacheDetail(movies, d)[k].imdbID == k
      {
      }
    }
  }

  /** The detail-cache rule: a stored movie with a plot. */
  predicate CacheHit(movies: map<string, Movie>, imdbId: string): (hit: bool)
    ensures hit ==> imdbId in movies && ConvertToDetailDto(movies[imdbId]).plot.Some?
    ensures !hit ==> imdbId !in movies || movies[imdbId].plot.None?
  {
    imdbId in movies && movies[imdbId].plot.Some?
  }

  /** Once a valid detail response is cached, its trimmed id is a cache hit. */
  lemma CachedDetailIsHit(movies: map<string, Movie>, d: MovieDetailDto)
    requires WellKeyed(movies) && ValidDetail(d)
    ensures CacheHit(CacheDetail(movies, d), JavaTrim(d.imdbID.value))
  {
  }

  /** A response the service treats as success: present, with `Response` equal to "True". */
  predicate SearchSucceeded(r: Option<MovieSearchResponseDto>) {
    r.Some? && r.value.response == Some("True")
  }

  predicate DetailSucceeded(r: Option<MovieDetailDto>) {
    r.Some? && r.value.response == Some("True")
  }

  function ItemsOf(response: MovieSearchResponseDto): seq<MovieListItemDto> {
    response.search.GetOr([])
  }

  // ---------------------------------------------------------------------------
  // The external API and the service

  /**
   * `OmdbApiService`: what the API answers for each request is fixed by two oracles
   * (`None` for an empty body); every request is counted.
   */
  class OmdbApiService {
    const searchOracle: string -> Option<MovieSearchResponseDto>
    const detailOracle: string -> Option<MovieDetailDto>
    var calls: nat

    constructor (searchOracle: string -> Option<MovieSearchResponseDto>,
                 detailOracle: string -> Option<MovieDetailDto>)
      ensures this.searchOracle == searchOracle && this.detailOracle == detailOracle
      ensures calls == 0
    {
      this.searchOracle := searchOracle;
      this.detailOracle := detailOracle;
      calls := 0;
    }

    method SearchMovies(searchText: string) returns (r: Option<MovieSearchResponseDto>)
      modifies this
      ensures r == searchOracle(searchText) && calls == old(calls) + 1
    {
      r := searchOracle(searchText);
      calls := calls + 1;
    }

    method GetMovieById(imdbId: string) returns (r: Option<MovieDetailDto>)
      modifies this
      ensures r == detailOracle(imdbId) && calls == old(calls) + 1
    {
      r := detailOracle(imdbId);
      calls := calls + 1;
    }
  }

  class MovieService {
    /** The movie repository, by `imdbID`. */
    var movies: map<string, Movie>
    /** The search repository, by search text (the column is unique). */
    var queries: map<string, SearchQuery>
    const api: OmdbApiService

    ghost predicate Valid()
      reads this
    {
      WellKeyed(movies) && QueriesResolve(movies, queries)
    }

    constructor (api: OmdbApiService)
      ensures Valid() && this.api == api
      ensures movies == map[] && queries == map[]
    {
      this.api := api;
      movies := map[];
      queries := map[];
    }

    /**
     * `searchMovies`: a stored search is answered from the repositories without asking
     * the API. Otherwise the API's answer is returned as it came, and stored only when it
     * is present and successful.
     */
    method SearchMovies(searchText: string) returns (r: Option<MovieSearchResponseDto>)
      requires Valid()
      modifies this, api
      ensures Valid()
      ensures searchText in old(queries) ==>
        && r == Some(CachedResponse(old(movies), old(queries)[searchText]))
        && api.calls == old(api.calls) && movies == old(movies) && queries == old(queries)
      ensures searchText !in old(queries) ==>
        r == api.searchOracle(searchText) && api.calls == old(api.calls) + 1
      ensures searchText !in old(queries) && SearchSucceeded(r) ==>
        && movies == CacheItems(old(movies), ItemsOf(r.value))
        && queries == old(queries)[searchText := SearchQuery(searchText, r.value.totalResults, true,
                                                             ResultIds(ItemsOf(r.value)))]
      ensures searchText !in old(queries) && !SearchSucceeded(r) ==>
        movies == old(movies) && queries == old(queries)
    {
      if searchText in queries {
        var cached := BuildResponseFromCache(queries[searchText]);
        r := Some(cached);
        return;
      }
      r := api.SearchMovies(searchText);
      if r.Some? && r.value.response == Some("True") {
        CacheSearchResults(searchText, r.value);
      }
    }

    /**
     * `getMovieById`: a stored movie with a plot is served without asking the API.
     * Otherwise the API's answer is returned as it came, and cached when it is present
     * and successful.
     */
    method GetMovieById(imdbId: string) returns (r: Option<MovieDetailDto>)
      requires Valid()
      modifies this, api
      ensures Valid() && queries == old(queries)
      ensures CacheHit(old(movies), imdbId) ==>
        && r == Some(ConvertToDetailDto(old(movies)[imdbId]))
        && api.calls == old(api.calls) && movies == old(movies)
      ensures !CacheHit(old(movies), imdbId) ==>
        && r == api.detailOracle(imdbId) && api.calls == old(api.calls) + 1
        && movies == if DetailSucceeded(r) then CacheDetail(old(movies), r.value) else old(movies)
    {
      if imdbId in movies && movies[imdbId].plot.Some? {
        r := Some(ConvertToDetailDto(movies[imdbId]));
        return;
      }
      r := api.GetMovieById(imdbId);
      if r.Some? && r.value.response == Some("True") {
        CacheMovieDetails(r.value);
      }
    }

    /**
     * `buildResponseFromCache`: one list item per stored result, in stored order, read from
     * the movie repository as it is now; "True" exactly when the stored flag is set.
     */
    method BuildResponseFromCache(q: SearchQuery) returns (r: MovieSearchResponseDto)
      requires forall i :: 0 <= i < |q.results| ==> q.results[i] in movies
      ensures r.search.Some? && |r.search.value| == |q.results|
      ensures forall i :: 0 <= i < |q.results| ==> r.search.value[i] == ItemOf(movies[q.results[i]])
      ensures r.totalResults == q.totalResults
      ensures r.response == Some("True") <==> q.response
      ensures r == CachedResponse(movies, q)
    {
      var movieList: seq<MovieListItemDto> := [];
      var i := 0;
      while i < |q.results|
        invariant 0 <= i <= |q.results|
        invariant |movieList| == i
        invariant forall k :: 0 <= k < i ==> movieList[k] == ItemOf(movies[q.results[k]])
      {
        var movie := movies[q.results[i]];
        movieList := movieList + [ItemOf(movie)];
        i := i + 1;
      }
      assert movieList == CachedItems(movies, q.results);
      r := MovieSearchResponseDto(Some(movieList), q.totalResults,
                                  if q.response then Some("True") else Some("False"));
    }

    /**
     * `cacheSearchResults`: stores the search (as successful, with the API's count) and,
     * item by item, saves each valid item's movie and appends its id to the results.
     * The source demands that the text is not stored yet (the column is unique).
     */
    method CacheSearchResults(searchText: string, response: MovieSearchResponseDto)
      requires Valid() && searchText !in queries
      modifies this
      ensures Valid()
      ensures movies == CacheItems(old(movies), ItemsOf(response))
      ensures queries == old(queries)[searchText := SearchQuery(searchText, response.totalResults, true,
                                                                ResultIds(ItemsOf(response)))]
    {
      var searchQuery := SearchQuery(searchText, response.totalResults, true, []);
      queries := queries[searchText := searchQuery];
      var searchResults: seq<string> := [];
      var items := ItemsOf(response);
      var i := 0;
      while i < |items|
        invariant 0 <= i <= |items|
        invariant movies == CacheItems(old(movies), items[..i])
        invariant searchResults == ResultIds(items[..i])
        invariant queries == old(queries)[searchText := searchQuery]
      {
        var item := items[i];
        CacheOneMore(old(movies), items, i);
        if !Present(item.imdbID) || !Present(item.title) {
          i := i + 1;
          continue; // skip invalid movies
        }
        var stored := Lookup(movies, item.imdbID.value);
        var movie := MovieFromItem(stored, item);
        movies := movies[movie.imdbID := movie];
        searchResults := searchResults + [movie.imdbID];
        i := i + 1;
      }
      assert items[..|items|] == items;
      queries := queries[searchText := searchQuery.(results := searchResults)];
      CacheItemsKeepsWellKeyed(old(movies), items);
      ResultIdsStored(old(movies), items);
      QueriesResolveGrow(old(movies), movies, old(queries));
    }

    /** `cacheMovieDetails`: saves a valid detail response, normalised, under its trimmed id. */
    method CacheMovieDetails(movieDetail: MovieDetailDto)
      requires Valid()
      modifies this
      ensures Valid() && queries == old(queries)
      ensures movies == CacheDetail(old(movies), movieDetail)
    {
      if !Present(movieDetail.imdbID) || !Present(movieDetail.title) {
        return; // do not cache invalid movies
      }
      var movie := MovieFromDetail(movieDetail);
      movies := movies[movie.imdbID := movie];
    }
  }

  /**
   * Two look-ups of the same id whose API answer is a valid detail with that very id:
   * the API is asked at most once, and the second answer comes from the cache.
   */
  method GetMovieByIdTwice(service: MovieService, imdbId: string) returns (first: Option<MovieDetailDto>, second: Option<MovieDetailDto>)
    requires service.Valid()
    requires var d := service.api.detailOracle(imdbId);
      DetailSucceeded(d) && ValidDetail(d.value) && JavaTrim(d.value.imdbID.value) == imdbId
    modifies service, service.api
    ensures service.Valid()
    ensures service.api.calls <= old(service.api.calls) + 1
    ensures CacheHit(service.movies, imdbId)
    ensures second == Some(ConvertToDetailDto(service.movies[imdbId]))
  {
    first := service.GetMovieById(imdbId);
    second := service.GetMovieById(imdbId);
  }

  /**
   * A new search that succeeds, asked twice: the API is asked once, and when the valid
   * items have distinct ids the second answer lists exactly those items, normalised, in
   * the API's order, with the API's count and "True".
   */
  method SearchMoviesTwice(service: MovieService, searchText: string) returns (first: Option<MovieSearchResponseDto>, second: Option<MovieSearchResponseDto>)
    requires service.Valid() && searchText !in service.queries
    requires var r := service.api.searchOracle(searchText);
      SearchSucceeded(r) && Distinct(ResultIds(ItemsOf(r.value)))
    modifies service, service.api
    ensures service.Valid()
    ensures service.api.calls == old(service.api.calls) + 1
    ensures first == service.api.searchOracle(searchText)
    ensures second == Some(MovieSearchResponseDto(Some(NormalisedItems(ItemsOf(first.value))),
                                                  first.value.totalResults, Some("True")))
  {
    first := service.SearchMovies(searchText);
    ghost var before := old(service.movies);
    CacheRoundTrip(before, ItemsOf(first.value));
    second := service.SearchMovies(searchText);
  }
}
