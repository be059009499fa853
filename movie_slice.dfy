/** The movies slice: the `fetchMovies` and `fetchMovieDetails` thunks and
    the six reducer cases that record their progress in the store. */
module MovieSlice {
  import opened Outcomes

  /** A record of the movie service (a different shape from the catalogue
      API's movies); it is only stored and handed back. */
  datatype ServiceMovie = ServiceMovie(
    id: int,
    title: string,
    description: string,
    releaseYear: int,
    rating: real,
    image: string)

  datatype MovieState = MovieState(
    movies: seq<ServiceMovie>,
    selectedMovie: Option<ServiceMovie>,
    loading: bool,
    error: Option<string>)

  /** One action type per thunk and lifecycle phase. A rejection carries the
      serialized error's `message`, which may be missing. */
  datatype MovieAction =
    | FetchMoviesPending
    | FetchMoviesFulfilled(movies: seq<ServiceMovie>)
    | FetchMoviesRejected(message: Option<string>)
    | FetchMovieDetailsPending
    | FetchMovieDetailsFulfilled(movie: ServiceMovie)
    | FetchMovieDetailsRejected(message: Option<string>)

  const FetchMoviesDefault: string := "Failed to fetch movies"
  const FetchMovieDetailsDefault: string := "Failed to fetch movie details"

  /** `action.error.message || fallback`: the message when it is a non-empty
      string, the thunk's fallback otherwise. */
  function ErrorText(message: Option<string>, fallback: string): (r: string)
    ensures r == fallback || message == Some(r)
    ensures Truthy(message) ==> r == message.value
    ensures fallback != "" ==> r != ""
  {
    if Truthy(message) then message.value else fallback
  }

  /** `fetchMovies`: the service's list, or its error. */
  function FetchMoviesThunk(response: Response<seq<ServiceMovie>>): (a: MovieAction)
    ensures a.FetchMoviesFulfilled? <==> response.Received?
    ensures a.FetchMoviesFulfilled? ==> a.movies == response.data
    ensures a.FetchMoviesRejected? || a.FetchMoviesFulfilled?
    ensures a.FetchMoviesRejected? ==> a.message == response.message
  {
    match response
    case Received(movies) => FetchMoviesFulfilled(movies)
    case Failed(message) => FetchMoviesRejected(message)
  }

  /** `fetchMovieDetails(id)`: the service's record, or its error. */
  function FetchMovieDetailsThunk(response: Response<ServiceMovie>): (a: MovieAction)
    ensures a.FetchMovieDetailsFulfilled? <==> response.Received?
    ensures a.FetchMovieDetailsFulfilled? ==> a.movie == response.data
    ensures a.FetchMovieDetailsRejected? || a.FetchMovieDetailsFulfilled?
    ensures a.FetchMovieDetailsRejected? ==> a.message == response.message
  {
    match response
    case Received(movie) => FetchMovieDetailsFulfilled(movie)
    case Failed(message) => FetchMovieDetailsRejected(message)
  }

  class MovieStore {
    var movies: seq<ServiceMovie>
    var selectedMovie: Option<ServiceMovie>
    var loading: bool
    var error: Option<string>

    function State(): MovieState
      reads this
    {
      MovieState(movies, selectedMovie, loading, error)
    }

    /** An error, when present, is never the empty string: a screen that
        tests `if (error)` sees every recorded failure. */
    predicate Valid()
      reads this
    {
      error != Some("")
    }

    /** `initialState`. */
    constructor ()
      ensures State() == MovieState([], None, false, None)
      ensures Valid()
    {
      movies, selectedMovie, loading, error := [], None, false, None;
    }

    /** The `extraReducers` cases. */
    method Apply(a: MovieAction)
      modifies this
      ensures a.FetchMoviesPending? || a.FetchMovieDetailsPending? ==>
        State() == old(State()).(loading := true, error := None)
      ensures a.FetchMoviesFulfilled? ==>
        State() == old(State()).(loading := false, movies := a.movies)
      ensures a.FetchMovieDetailsFulfilled? ==>
        State() == old(State()).(loading := false, selectedMovie := Some(a.movie))
      ensures a.FetchMoviesRejected? ==>
        State() == old(State()).(loading := false, error := Some(ErrorText(a.message, FetchMoviesDefault)))
      ensures a.FetchMovieDetailsRejected? ==>
        State() == old(State()).(loading := false, error := Some(ErrorText(a.message, FetchMovieDetailsDefault)))
      ensures old(Valid()) ==> Valid()
    {
      match a
      case FetchMoviesPending =>
        loading := true;
        error := None;
      case FetchMoviesFulfilled(payload) =>
        loading := false;
        movies := payload;
      case FetchMoviesRejected(message) =>
        loading := false;
        error := Some(ErrorText(message, FetchMoviesDefault));
      case FetchMovieDetailsPending =>
        loading := true;
        error := None;
      case FetchMovieDetailsFulfilled(payload) =>
        loading := false;
        selectedMovie := Some(payload);
      case FetchMovieDetailsRejected(message) =>
        loading := false;
        error := Some(ErrorText(message, FetchMovieDetailsDefault));
    }

    /** Dispatching `fetchMovies`: on success the list is replaced and the
        error cleared; on failure the list and the selection are kept and a
        non-empty error is recorded. */
    method FetchMovies(response: Response<seq<ServiceMovie>>)
      modifies this
      ensures !loading && selectedMovie == old(selectedMovie)
      ensures response.Received? ==> movies == response.data && error == None
      ensures response.Failed? ==>
        movies == old(movies) && error == Some(ErrorText(response.message, FetchMoviesDefault))
      ensures Valid()
    {
      Apply(FetchMoviesPending);
      Apply(FetchMoviesThunk(response));
    }

    /** Dispatching `fetchMovieDetails(id)`: on success the record becomes
        the selection; the list is never touched. */
    method FetchMovieDetails(response: Response<ServiceMovie>)
      modifies this
      ensures !loading && movies == old(movies)
      ensures response.Received? ==> selectedMovie == Some(response.data) && error == None
      ensures response.Failed? ==>
        selectedMovie == old(selectedMovie)
        && error == Some(ErrorText(response.message, FetchMovieDetailsDefault))
      ensures Valid()
    {
      Apply(FetchMovieDetailsPending);
      Apply(FetchMovieDetailsThunk(response));
    }
  }
}
