/**
 * The movie catalog of scripts/api.js (`MovieAPI`) in the form the shipped
 * configuration runs it: without a service key every query is answered from
 * a fixed list of six movies, and a failed remote call falls back to the
 * same data. The remote service itself is a parameter: `Fetch` stands for
 * the outcome of one request.
 */
module MovieCatalog {
  import opened Seqs
  import opened Text

  /** A movie summary; the rating is kept in tenths (8.7 is 87) and the overview text is not kept. */
  datatype Movie = Movie(
    id: int,
    title: string,
    posterPath: string,
    voteAverageTenths: int,
    releaseDate: string)

  datatype Genre = Genre(id: int, name: string)

  /** The detail record of one movie; the rating is kept in tenths and the overview text is not kept. */
  datatype MovieDetails = MovieDetails(
    id: int,
    title: string,
    posterPath: string,
    backdropPath: string,
    releaseDate: string,
    runtime: nat,
    voteAverageTenths: int,
    voteCount: nat,
    genres: seq<Genre>,
    productionCompanies: seq<string>,
    budget: nat,
    revenue: nat)

  /** The outcome of one request to the remote service: its decoded body, or a failure of any kind. */
  datatype Fetch<T> = Fetched(value: T) | FetchFailed

  /** The placeholder that stands for "no key configured". */
  const PlaceholderKey: string := "YOUR_TMDB_API_KEY"

  /** The key the shipped configuration installs. */
  const ConfiguredKey: string := "YOUR_TMDB_API_KEY"

  /** `getMockMovies`: the six movies of the offline list, in list order. */
  const MockMovies: seq<Movie> := [
    Movie(1, "The Matrix", "/f89U3ADr1oiB1s9GkdPOEpXUk5H.jpg", 87, "1999-03-31"),
    Movie(2, "Inception", "/9gk7adHYeDvHkCSEqAvQNLV5Uge.jpg", 88, "2010-07-16"),
    Movie(3, "Interstellar", "/gEU2QniE6E77NI6lCU6MxlNBvIx.jpg", 86, "2014-11-07"),
    Movie(4, "The Dark Knight", "/qJ2tW6WMUDux911r6m7haRef0WH.jpg", 90, "2008-07-18"),
    Movie(5, "Pulp Fiction", "/d5iIlFn5s0ImszYzBPb8JPIfbXD.jpg", 89, "1994-10-14"),
    Movie(6, "Fight Club", "/bptfVGEQuv6vDTIMVCHjJ9Dz8PX.jpg", 88, "1999-10-15")
  ]

  /** The offline list has six distinct movies with identifiers 1 to 6, in that order. */
  lemma MockMoviesShape()
    ensures |MockMovies| == 6
    ensures forall i :: 0 <= i < |MockMovies| ==> MockMovies[i].id == i + 1
    ensures NoDuplicates(MockMovies)
  {
  }

  /** The one detail record the offline table holds. */
  const MatrixDetails: MovieDetails := MovieDetails(
    1, "The Matrix", "/f89U3ADr1oiB1s9GkdPOEpXUk5H.jpg", "/fNG7i7RqMErkcqhohV2a6cV1Ehy.jpg",
    "1999-03-31", 136, 87, 18965, [Genre(28, "Action"), Genre(878, "Science Fiction")],
    ["Warner Bros."], 63000000, 463517383)

  /** The offline detail table: keyed by identifier, holding only identifier 1. */
  const DetailsTable: map<int, MovieDetails> := map[1 := MatrixDetails]

  /**
   * `movies[movieId] || movies[1]`: the record of the identifier if the table
   * has one, otherwise the record of identifier 1. Since the table holds only
   * identifier 1, every identifier yields that record, and the record carries
   * the requested identifier exactly when the request was for 1.
   */
  function MockMovieDetails(movieId: int): (d: MovieDetails)
    ensures d == DetailsTable[1] && d.id == 1
    ensures d.id == movieId <==> movieId == 1
  {
    if movieId in DetailsTable then DetailsTable[movieId] else DetailsTable[1]
  }

  /** The detail record of identifier 1 agrees with the first movie of the offline list on every shared field. */
  lemma DetailsAgreeWithSummary()
    ensures var d, m := MockMovieDetails(1), MockMovies[0];
      d.id == m.id && d.title == m.title && d.posterPath == m.posterPath
      && d.releaseDate == m.releaseDate && d.voteAverageTenths == m.voteAverageTenths
  {
  }

  /** The title search predicate: the lowercased title includes the lowercased query. */
  predicate TitleMatches(m: Movie, query: string)
  {
    Includes(LowerStr(m.title), LowerStr(query))
  }

  /** The offline answer to a title search. */
  function MockSearch(query: string): seq<Movie>
  {
    Filter(MockMovies, m => TitleMatches(m, query))
  }

  /**
   * The offline search returns exactly the movies of the list whose title
   * matches, in list order; the empty query returns the whole list.
   */
  lemma MockSearchSpec(query: string)
    ensures forall m :: m in MockSearch(query) <==> m in MockMovies && TitleMatches(m, query)
    ensures IsSubsequence(MockSearch(query), MockMovies)
    ensures NoDuplicates(MockSearch(query))
    ensures query == "" ==> MockSearch(query) == MockMovies
  {
    FilterIsSubsequence(MockMovies, m => TitleMatches(m, query));
    MockMoviesShape();
    FilterNoDuplicates(MockMovies, m => TitleMatches(m, query));
    if query == "" {
      FilterKeepsAll(MockMovies, m => TitleMatches(m, query));
    }
  }

  /**
   * `getMovies`: without a key, the offline list; with a key, the remote list,
   * or the offline list when the request fails. It never fails itself.
   */
  function GetMovies(apiKey: string, remote: Fetch<seq<Movie>>): (r: seq<Movie>)
    ensures apiKey == PlaceholderKey || remote.FetchFailed? ==> r == MockMovies
    ensures apiKey != PlaceholderKey && remote.Fetched? ==> r == remote.value
  {
    if apiKey == PlaceholderKey then MockMovies
    else match remote
      case Fetched(movies) => movies
      case FetchFailed => MockMovies
  }

  /**
   * `getMovieDetails`: without a key, the offline record; with a key, the
   * remote record, or the offline record when the request fails.
   */
  function GetMovieDetails(apiKey: string, movieId: int, remote: Fetch<MovieDetails>): (r: MovieDetails)
    ensures apiKey == PlaceholderKey || remote.FetchFailed? ==> r == MockMovieDetails(movieId) && r.id == 1
    ensures apiKey != PlaceholderKey && remote.Fetched? ==> r == remote.value
  {
    if apiKey == PlaceholderKey then MockMovieDetails(movieId)
    else match remote
      case Fetched(details) => details
      case FetchFailed => MockMovieDetails(movieId)
  }

  /**
   * `searchMovies`: without a key, the offline title search; with a key, the
   * remote results, or the same offline title search when the request fails.
   */
  function SearchMovies(apiKey: string, query: string, remote: Fetch<seq<Movie>>): (r: seq<Movie>)
    ensures apiKey == PlaceholderKey || remote.FetchFailed? ==> r == MockSearch(query)
    ensures apiKey != PlaceholderKey && remote.Fetched? ==> r == remote.value
  {
    if apiKey == PlaceholderKey then MockSearch(query)
    else match remote
      case Fetched(movies) => movies
      case FetchFailed => MockSearch(query)
  }

  /**
   * With the shipped key the remote service is never consulted: every answer
   * is the offline one, whatever the service would have returned, every movie
   * found by a search is in the offline list, and every detail lookup returns
   * the record of identifier 1.
   */
  lemma ConfiguredCatalogIsOffline(query: string, movieId: int, list: Fetch<seq<Movie>>, details: Fetch<MovieDetails>)
    ensures GetMovies(ConfiguredKey, list) == MockMovies
    ensures forall m :: m in SearchMovies(ConfiguredKey, query, list) ==> m in MockMovies && TitleMatches(m, query)
    ensures GetMovieDetails(ConfiguredKey, movieId, details) == MatrixDetails
  {
    MockSearchSpec(query);
  }
}
