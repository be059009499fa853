/** The non-rendering logic of the movie list screen: the component's state
    variables, the paging accumulator driven by `loadMovies`, `handleSearch`
    and `handleLoadMore`, and `toggleFavorite`. A load is split at its
    `await`: `BeginLoad` is what runs before the request, `CompleteLoad`
    what runs once it settled, with the fetched catalogue as a parameter. */
module MovieListScreen {
  import opened Outcomes
  import opened MovieApi
  import opened FavoritesSlice

  const LoadError: string := "Failed to load movies. Please try again later."

  /** The request `loadMovies(pageNum)` issues: `searchMovies` when the query
      is truthy, `getMovies` otherwise. Either way a successful response is
      the page of the catalogue filtered by the query. */
  function FetchPage(catalogue: Response<seq<Movie>>, query: string, pageNum: int): (r: ApiResult<PaginatedResponse>)
    ensures r.Ok? <==> catalogue.Received?
    ensures r.Ok? ==> r.value == Paginate(Matching(catalogue.data, query), pageNum, ItemsPerPage)
  {
    if query != "" then SearchMovies(catalogue, query, pageNum)
    else if catalogue.Received? then
      MatchingEmptyQuery(catalogue.data);
      GetMovies(catalogue, pageNum)
    else GetMovies(catalogue, pageNum)
  }

  /** The favorites list after `toggleFavorite(movie)`. */
  function Toggled(favorites: seq<Movie>, m: Movie): (r: seq<Movie>)
    ensures HasId(r, m.id) <==> !HasId(favorites, m.id)
    ensures forall id :: id != m.id ==> (HasId(r, id) <==> HasId(favorites, id))
    ensures DistinctIds(favorites) ==> DistinctIds(r)
  {
    if HasId(favorites, m.id) then
      var r := WithoutId(favorites, m.id);
      if DistinctIds(favorites) then WithoutIdKeepsDistinct(favorites, m.id); r else r
    else
      var r := WithFavorite(favorites, m);
      assert forall id :: HasId(favorites, id) ==> HasId(r, id);
      r
  }

  /** Toggling a movie that is not a favorite twice restores the list. */
  lemma ToggleTwiceRestores(favorites: seq<Movie>, m: Movie)
    requires !HasId(favorites, m.id)
    ensures Toggled(Toggled(favorites, m), m) == favorites
  {
    AddThenRemoveRestores(favorites, m);
  }

  /** Toggling a favorite twice keeps it a favorite but moves it to the end. */
  lemma ToggleTwiceMovesToEnd(favorites: seq<Movie>, m: Movie)
    requires HasId(favorites, m.id)
    ensures Toggled(Toggled(favorites, m), m) == WithoutId(favorites, m.id) + [m]
  {
  }

  /** `shown` is pages `1..page` of `found` and `hasMore` is what page
      `page` reported. */
  predicate ShowsPages(shown: seq<Movie>, page: int, hasMore: bool, found: seq<Movie>)
  {
    page >= 1 && shown == PagesUpTo(found, page, ItemsPerPage)
    && hasMore == Paginate(found, page, ItemsPerPage).hasMore
  }

  /** A successful first-page load shows page 1. */
  lemma FirstPageShows(found: seq<Movie>)
    ensures var r := Paginate(found, 1, ItemsPerPage); ShowsPages(r.movies, 1, r.hasMore, found)
  {
    assert PagesUpTo(found, 1, ItemsPerPage) == [] + Paginate(found, 1, ItemsPerPage).movies;
  }

  /** A successful load of the next page, appended, shows one page more. */
  lemma NextPageShows(shown: seq<Movie>, page: int, hasMore: bool, found: seq<Movie>)
    requires ShowsPages(shown, page, hasMore, found)
    ensures var r := Paginate(found, page + 1, ItemsPerPage); ShowsPages(shown + r.movies, page + 1, r.hasMore, found)
  {
  }

  /** What the accumulated list is: a prefix of the filtered catalogue, ten
      movies per page loaded, and the whole of it once the last page said
      there is no more. */
  lemma ShownPagesArePrefix(shown: seq<Movie>, page: int, hasMore: bool, found: seq<Movie>)
    requires ShowsPages(shown, page, hasMore, found)
    ensures page * ItemsPerPage >= 0
    ensures shown == found[..Min(page * ItemsPerPage, |found|)]
    ensures !hasMore ==> shown == found
  {
    PagesUpToIsPrefix(found, page, ItemsPerPage);
  }

  class ListScreen {
    var movies: seq<Movie>
    var loading: bool
    var loadingMore: bool
    var error: Option<string>
    var searchQuery: string
    var page: int
    var hasMore: bool
    /** The favorites slice the screen reads and dispatches to. */
    const favorites: FavoritesStore

    /** `page` is 1-based, so a load-more never asks for page 1 again. */
    predicate Valid()
      reads this
    {
      page >= 1
    }

    /** The list shows pages `1..page` of the catalogue filtered by `query`,
        and `hasMore` is what the last of them reported. */
    predicate Accumulated(all: seq<Movie>, query: string)
      reads this
    {
      ShowsPages(movies, page, hasMore, Matching(all, query))
    }

    /** The initial state of the component's state variables. */
    constructor (favorites: FavoritesStore)
      ensures movies == [] && loading && !loadingMore && error == None
      ensures searchQuery == "" && page == 1 && hasMore
      ensures this.favorites == favorites
      ensures Valid()
    {
      movies, loading, loadingMore, error := [], true, false, None;
      searchQuery, page, hasMore := "", 1, true;
      this.favorites := favorites;
    }

    /** `loadMovies(pageNum)` up to its `await`: raise the spinner of the
        kind of load (first page or more) and clear the error. */
    method BeginLoad(pageNum: int)
      modifies this
      ensures pageNum == 1 ==> loading && loadingMore == old(loadingMore)
      ensures pageNum != 1 ==> loadingMore && loading == old(loading)
      ensures error == None
      ensures movies == old(movies) && page == old(page) && hasMore == old(hasMore)
      ensures searchQuery == old(searchQuery)
    {
      if pageNum == 1 {
        loading := true;
      } else {
        loadingMore := true;
      }
      error := None;
    }

    /** `loadMovies(pageNum)` after its `await`. `query` is the search query
        the load was started with and `catalogue` the outcome of the fetch.
        Page 1 replaces the list, a later page is appended; `page` and
        `hasMore` change only on success; both spinners are lowered. */
    method CompleteLoad(pageNum: int, query: string, catalogue: Response<seq<Movie>>)
      modifies this
      ensures !loading && !loadingMore && searchQuery == old(searchQuery)
      ensures catalogue.Received? ==>
        var response := Paginate(Matching(catalogue.data, query), pageNum, ItemsPerPage);
        && movies == (if pageNum == 1 then response.movies else old(movies) + response.movies)
        && hasMore == response.hasMore && page == pageNum && error == old(error)
      ensures catalogue.Failed? ==>
        movies == old(movies) && page == old(page) && hasMore == old(hasMore) && error == Some(LoadError)
      ensures old(Valid()) && pageNum >= 1 ==> Valid()
      ensures catalogue.Received? && pageNum == 1 ==> Accumulated(catalogue.data, query)
      ensures catalogue.Received? && old(Accumulated(catalogue.data, query)) && pageNum == old(page) + 1 ==>
        Accumulated(catalogue.data, query)
    {
      var response := FetchPage(catalogue, query, pageNum);
      match response {
        case Ok(r) =>
          if pageNum == 1 {
            movies := r.movies;
          } else {
            movies := movies + r.movies;
          }
          hasMore := r.hasMore;
          page := pageNum;
        case Err(_) =>
          error := Some(LoadError);
      }
      loading := false;
      loadingMore := false;
      if catalogue.Received? {
        var found := Matching(catalogue.data, query);
        if pageNum == 1 {
          FirstPageShows(found);
        } else if old(ShowsPages(movies, page, hasMore, found)) && pageNum == old(page) + 1 {
          NextPageShows(old(movies), old(page), old(hasMore), found);
        }
      }
    }

    /** `loadMovies(pageNum)` run to completion without another load in
        between. */
    method LoadMovies(pageNum: int, query: string, catalogue: Response<seq<Movie>>)
      modifies this
      ensures !loading && !loadingMore && searchQuery == old(searchQuery)
      ensures catalogue.Received? ==>
        var response := Paginate(Matching(catalogue.data, query), pageNum, ItemsPerPage);
        && movies == (if pageNum == 1 then response.movies else old(movies) + response.movies)
        && hasMore == response.hasMore && page == pageNum && error == None
      ensures catalogue.Failed? ==>
        movies == old(movies) && page == old(page) && hasMore == old(hasMore) && error == Some(LoadError)
      ensures old(Valid()) && pageNum >= 1 ==> Valid()
      ensures catalogue.Received? && pageNum == 1 ==> Accumulated(catalogue.data, query)
      ensures catalogue.Received? && old(Accumulated(catalogue.data, query)) && pageNum == old(page) + 1 ==>
        Accumulated(catalogue.data, query)
    {
      BeginLoad(pageNum);
      CompleteLoad(pageNum, query, catalogue);
    }

    /** `handleSearch(text)`: record the query, reset paging and start a
        first-page load. */
    method HandleSearch(text: string)
      modifies this
      ensures searchQuery == text && page == 1 && hasMore
      ensures loading && loadingMore == old(loadingMore) && error == None && movies == old(movies)
      ensures Valid()
    {
      searchQuery := text;
      page := 1;
      hasMore := true;
      BeginLoad(1);
    }

    /** `handleLoadMore()`: start loading the next page unless a load-more is
        in flight or the last page said there is no more. Returns the page
        whose load was started. */
    method HandleLoadMore() returns (requested: Option<int>)
      requires Valid()
      modifies this
      ensures old(!loadingMore && hasMore) ==>
        && requested == Some(old(page) + 1)
        && loadingMore && error == None
        && loading == old(loading) && movies == old(movies) && page == old(page) && hasMore == old(hasMore)
      ensures !old(!loadingMore && hasMore) ==>
        requested == None && loadingMore == old(loadingMore) && error == old(error) && loading == old(loading)
      ensures searchQuery == old(searchQuery) && movies == old(movies) && page == old(page) && hasMore == old(hasMore)
      ensures requested.Some? ==> requested.value >= 2
      ensures Valid()
    {
      if !loadingMore && hasMore {
        BeginLoad(page + 1);
        requested := Some(page + 1);
      } else {
        requested := None;
      }
    }

    /** `toggleFavorite(movie)`: remove it from the favorites when its id is
        there, add it otherwise. */
    method ToggleFavorite(m: Movie)
      modifies favorites
      ensures favorites.movies == Toggled(old(favorites.movies), m)
    {
      if favorites.IsFavorite(m.id) {
        favorites.RemoveFavorite(m.id);
      } else {
        favorites.AddFavorite(m);
      }
    }
  }
}
