/**
 * The backend's persistent entities and the transfer objects of the external movie API,
 * as plain values. A Java reference that may be null is an `Option`; getters and setters
 * are fields; database ids and timestamps are left out.
 */
module Entities {
  import opened Wrappers

  /** The kinds of title the API reports. */
  datatype MovieType = Film | Series | Episode | Game

  /** One entry of a search response (`MovieListItemDto`). */
  datatype MovieListItemDto = MovieListItemDto(
    title: Option<string>,
    year: Option<string>,
    imdbID: Option<string>,
    kind: Option<MovieType>,
    poster: Option<string>)

  /** A search response (`MovieSearchResponseDto`): `Search`, `totalResults`, `Response`. */
  datatype MovieSearchResponseDto = MovieSearchResponseDto(
    search: Option<seq<MovieListItemDto>>,
    totalResults: Option<string>,
    response: Option<string>)

  /** A detail response (`MovieDetailDto`). */
  datatype MovieDetailDto = MovieDetailDto(
    title: Option<string>,
    year: Option<string>,
    imdbID: Option<string>,
    kind: Option<MovieType>,
    poster: Option<string>,
    plot: Option<string>,
    director: Option<string>,
    actors: Option<string>,
    runtime: Option<string>,
    genre: Option<string>,
    imdbRating: Option<string>,
    response: Option<string>)

  /**
   * A stored movie (`Movie`), keyed by `imdbID`. The service is the only writer and always
   * fills id, title, year and poster; the descriptive fields stay null until a detail
   * response is cached.
   */
  datatype Movie = Movie(
    imdbID: string,
    title: string,
    year: string,
    kind: Option<MovieType>,
    poster: string,
    plot: Option<string>,
    director: Option<string>,
    actors: Option<string>,
    runtime: Option<string>,
    genre: Option<string>,
    imdbRating: Option<string>)

  /**
   * A stored search (`SearchQuery`, with its `SearchResult` rows): the search text, the
   * count the API reported, the success flag, and the ids of the result movies in the order
   * the rows were saved. The model reads them back in that order; the source's mapping and
   * query do not fix one.
   */
  datatype SearchQuery = SearchQuery(
    searchText: string,
    totalResults: Option<string>,
    response: bool,
    results: seq<string>)
}
