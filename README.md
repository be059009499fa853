# MovieExplorer core, modelled in Dafny

MovieExplorer is a React Native app for browsing a public movie catalogue,
signing in and keeping a list of favourite movies. This project models the
logic at its core and proves what that logic promises:

- **the catalogue API** (`movieApi`): client-side pagination of the fetched
  catalogue by JavaScript's `Array.prototype.slice`, the `hasMore` flag,
  case-insensitive title search, and the fixed error messages of
  `getMovies`, `getMovieById` and `searchMovies`;
- **the favorites slice**: `addFavorite`, `removeFavorite` and `setFavorites`
  as methods on a store whose list is updated in place, each specified by a
  function on the old list, with the laws that relate them (idempotence, an
  add undone by a remove, duplicate-free lists stay duplicate-free);
- **the auth slice**: the four thunks `login`, `register`, `logout` and
  `checkAuth` as maps from the service's outcome to the action they
  dispatch, and the reducer cases as one `Apply` method on a store, with the
  invariant "signed in exactly when a non-empty token is held";
- **the movies slice**: `fetchMovies` and `fetchMovieDetails`, their reducer
  cases, and the invariant that a recorded error is never the empty string;
- **the movie list screen**: its state variables, `loadMovies` split at its
  `await` (`BeginLoad` then `CompleteLoad`), `handleSearch`,
  `handleLoadMore` and `toggleFavorite`. The main property concerns loads
  of one query against one catalogue: a successful page-1 load, and then
  each successful load of the next page as `handleLoadMore` requests it.
  After those the list shown is exactly the first `10 * page` movies of the
  filtered catalogue, and the whole filtered catalogue once `hasMore` is
  false. Loads with different queries or catalogues are not covered by it
  (see "## Left out").

Files: `outcomes.dfy` (shared `Option`, `Response`, `ApiResult`, and
JavaScript truthiness of a string), `movie_api.dfy`, `favorites_slice.dfy`,
`auth_slice.dfy`, `movie_slice.dfy`, `movie_list_screen.dfy`.

The network and `AsyncStorage` are parameters. A fetch is a
`Response<T>`: either the data received or a failure. An auth exchange is an
`Exchange`. A storage read is a `StoredToken`. `logout`'s storage removal is
a boolean.

One consequence of the code shows up in the auth contracts. `authService.login`
and `authService.register` never return an `email`
(`src/services/authService.ts:46`, `:80`). The fulfilled reducer cases
store `{ email: action.payload.email || '' }`
(`src/store/authSlice.ts:88`, `:103`), so a signed-in user's email is always
the empty string. `AuthSlice.AuthStore.Login` and `Register` state this.

## Model

| member | source | states |
|---|---|---|
| `MovieApi.JsSlice` | src/services/movieApi.ts:34 | `Array.prototype.slice` with JavaScript's clamping and negative indices: the result is no longer than the input and has only its elements; for `0 <= start <= end` it is the clamped window `s[min(start,n)..min(end,n)]` |
| `MovieApi.Paginate` | src/services/movieApi.ts:32-39 | page `page` of size `limit` holds only catalogue movies; `hasMore` holds exactly when `page * limit` is below the catalogue's length; for `page >= 1` it is the window starting at `(page - 1) * limit` |
| `MovieApi.PageWindow` | src/services/movieApi.ts:32-39 | a page holds at most `limit` movies, exactly `min(limit, n - start)` of them, in catalogue order from index `(page - 1) * limit`; a page past the end is empty and reports no more |
| `MovieApi.PagesUpToIsPrefix` | src/services/movieApi.ts:32-38 | pages `1..k` concatenated are the prefix of the catalogue of length `min(k * limit, n)`: pages neither overlap nor leave gaps |
| `MovieApi.PagesUpToComplete` | src/services/movieApi.ts:38 | once page `k` reports `hasMore == false`, pages `1..k` cover the whole catalogue |
| `MovieApi.IncludesIffOccurs` | src/services/movieApi.ts:71 | `String.prototype.includes` holds exactly when the part occurs at some index of the text (both directions) |
| `MovieApi.Matching` | src/services/movieApi.ts:70-72 | the filter keeps exactly the movies whose lower-cased title contains the lower-cased query: every kept movie is from the catalogue and matches, and every matching catalogue movie is kept |
| `MovieApi.MatchingAppend` | src/services/movieApi.ts:70-72 | filtering distributes over concatenation, so matches keep their catalogue order |
| `MovieApi.MatchingEmptyQuery` | src/services/movieApi.ts:70-72 | the empty query matches every title, so filtering by it returns the catalogue unchanged |
| `MovieApi.MatchingIgnoresQueryCase` | src/services/movieApi.ts:71 | searching for a query and for its lower-cased form gives the same movies |
| `MovieApi.GetMovies` | src/services/movieApi.ts:28-44 | succeeds exactly when the fetch does, with the requested page of the catalogue; otherwise fails with "Failed to fetch movies" |
| `MovieApi.GetMovieById` | src/services/movieApi.ts:50-58 | succeeds exactly when the fetch does, with the received movie; otherwise fails with "Failed to fetch movie details" |
| `MovieApi.SearchMovies` | src/services/movieApi.ts:66-86 | succeeds exactly when the fetch does, with the requested page of the filtered catalogue, and every returned movie is a catalogue movie whose title matches; otherwise fails with "Failed to search movies" |
| `MovieApi.SearchEmptyQueryIsGetMovies` | src/services/movieApi.ts:28-86 | searching for the empty string gives the same page as `getMovies` |
| `MovieApi.TwentyFiveMovieCatalogue` | src/services/movieApi.ts:32-38 | with 25 movies and 10 per page, pages 1 and 2 report more, page 3 holds the last 5 and reports none, page 4 is empty |
| `MovieApi.CaseVariedSearch` | src/services/movieApi.ts:70-72 | the case of the title is ignored as well as the query's: "batMan" selects "Batman" and "A Batman", in catalogue order, and not "Alpha" |
| `MovieApi.TwoMovieCatalogue` | src/services/movieApi.ts:28-39 | a two-movie catalogue is returned whole by the default first page, with no more to load |
| `FavoritesSlice.FindById` | src/store/favoritesSlice.ts:18 | `Array.prototype.find` by id: finds something exactly when the id is listed, and returns the first entry with that id |
| `FavoritesSlice.WithFavorite` | src/store/favoritesSlice.ts:17-22 | the list after `addFavorite`: unchanged when the id is listed, otherwise the movie appended at the end; the id is then listed, and a duplicate-free list stays duplicate-free |
| `FavoritesSlice.WithoutId` | src/store/favoritesSlice.ts:23-26 | the list after `removeFavorite`: exactly the entries whose id differs, so the id is no longer listed |
| `FavoritesSlice.WithoutIdAppend` | src/store/favoritesSlice.ts:24 | removal distributes over concatenation: survivors keep their relative order |
| `FavoritesSlice.WithoutAbsentId` | src/store/favoritesSlice.ts:24 | removing an id that is not listed changes nothing |
| `FavoritesSlice.RemoveIdempotent` | src/store/favoritesSlice.ts:23-26 | removing the same id twice equals removing it once |
| `FavoritesSlice.WithoutIdKeepsDistinct` | src/store/favoritesSlice.ts:24 | removal keeps a duplicate-free list duplicate-free |
| `FavoritesSlice.AddPresentIsNoOp` | src/store/favoritesSlice.ts:18 | adding a movie whose id is listed leaves the list unchanged |
| `FavoritesSlice.AddIdempotent` | src/store/favoritesSlice.ts:17-22 | adding the same movie twice equals adding it once |
| `FavoritesSlice.AddThenRemoveRestores` | src/store/favoritesSlice.ts:17-26 | adding a movie whose id is absent and then removing that id restores the original list, order included |
| `FavoritesSlice.FavoritesStore.constructor` | src/store/favoritesSlice.ts:9-11 | the initial state has no favorites |
| `FavoritesSlice.FavoritesStore.IsFavorite` | src/screens/MovieListScreen.tsx:82 | `favorites.some(fav => fav.id === id)`: true exactly when some listed movie has the id |
| `FavoritesSlice.FavoritesStore.AddFavorite` | src/store/favoritesSlice.ts:17-22 | updates the list to `WithFavorite` of the old list; the id is then listed and duplicate-freedom is kept |
| `FavoritesSlice.FavoritesStore.RemoveFavorite` | src/store/favoritesSlice.ts:23-26 | updates the list to `WithoutId` of the old list; the id is then absent and duplicate-freedom is kept |
| `FavoritesSlice.FavoritesStore.SetFavorites` | src/store/favoritesSlice.ts:27-29 | replaces the list wholesale, with no deduplication: the new list is duplicate-free only if the payload is |
| `AuthSlice.ServiceLogin` | src/services/authService.ts:36-55 | `authService.login` resolves exactly when the reply carries a truthy token, and then with `{ token }` alone |
| `AuthSlice.ServiceRegister` | src/services/authService.ts:70-89 | `authService.register` resolves exactly when the reply carries a truthy token, and then with `{ token, id }` |
| `AuthSlice.LoginThunk` | src/store/authSlice.ts:23-33 | fulfilled exactly when the service resolved, with its response as payload; any failure is rejected as "Invalid credentials" |
| `AuthSlice.RegisterThunk` | src/store/authSlice.ts:35-45 | fulfilled exactly when the service resolved, with its response as payload; any failure is rejected as "Registration failed" |
| `AuthSlice.LogoutThunk` | src/store/authSlice.ts:47-56 | fulfilled exactly when the token was removed; otherwise rejected as "Logout failed" |
| `AuthSlice.CheckAuthThunk` | src/store/authSlice.ts:58-71 | fulfilled exactly when storage yields a truthy token, with that token; "No token found" when it yields nothing, "Auth check failed" when the read throws |
| `AuthSlice.SettledActionsCarryToken` | src/services/authService.ts:41-43 | every sign-in action the thunks can dispatch carries a non-empty token: the service's token check and `checkAuth`'s truthiness test (src/store/authSlice.ts:63-65) meet the precondition of the store's token invariant |
| `AuthSlice.AuthStore.constructor` | src/store/authSlice.ts:15-21 | the initial state: not signed in, no token, no user, idle, no error; signed in exactly when a token is held |
| `AuthSlice.AuthStore.Apply` | src/store/authSlice.ts:77-126 | each reducer case's whole new state, as an update of the old one; action types without a case change nothing; "signed in exactly when a non-empty token is held" is preserved by every action that carries a non-empty token |
| `AuthSlice.AuthStore.Login` | src/store/authSlice.ts:23-33 | after dispatching `login`: idle; on success signed in with the reply's token, an empty email and no error; on failure "Invalid credentials" with the session unchanged; the invariant is kept |
| `AuthSlice.AuthStore.Register` | src/store/authSlice.ts:35-45 | after dispatching `register`: idle; on success signed in with the reply's token, an empty email and no error; on failure "Registration failed" with the session unchanged; the invariant is kept |
| `AuthSlice.AuthStore.Logout` | src/store/authSlice.ts:47-56 | after dispatching `logout`: when the token was removed the session and error are cleared, otherwise nothing changes |
| `AuthSlice.AuthStore.CheckAuth` | src/store/authSlice.ts:58-71 | after dispatching `checkAuth`: signed in with the stored token when there is one, otherwise signed out with no user; the invariant holds in every case |
| `MovieSlice.ErrorText` | src/store/movieSlice.ts:49 | `message \|\| fallback`: the message when it is a non-empty string, else the fallback, so it is never empty when the fallback is not |
| `MovieSlice.FetchMoviesThunk` | src/store/movieSlice.ts:18-23 | fulfilled exactly when the service returned, with its list; otherwise rejected with the service's error message |
| `MovieSlice.FetchMovieDetailsThunk` | src/store/movieSlice.ts:25-30 | fulfilled exactly when the service returned, with its record; otherwise rejected with the service's error message |
| `MovieSlice.MovieStore.constructor` | src/store/movieSlice.ts:11-16 | the initial state: no movies, no selection, idle, no error |
| `MovieSlice.MovieStore.Apply` | src/store/movieSlice.ts:38-63 | each reducer case's whole new state, as an update of the old one; a recorded error is never the empty string |
| `MovieSlice.MovieStore.FetchMovies` | src/store/movieSlice.ts:18-23 | after dispatching `fetchMovies`: idle; on success the list is replaced and the error is cleared; on failure the list is kept and the non-empty error text is recorded |
| `MovieSlice.MovieStore.FetchMovieDetails` | src/store/movieSlice.ts:25-30 | after dispatching `fetchMovieDetails`: idle, list untouched; on success the record is selected; on failure the selection is kept and the error text is recorded |
| `MovieListScreen.FetchPage` | src/screens/MovieListScreen.tsx:49-51 | whether the screen calls `searchMovies` (truthy query) or `getMovies`, a successful response is the requested page of the catalogue filtered by the query |
| `MovieListScreen.Toggled` | src/screens/MovieListScreen.tsx:81-88 | toggling flips whether the movie's id is listed, leaves every other id as it was, and keeps a duplicate-free list duplicate-free |
| `MovieListScreen.ToggleTwiceRestores` | src/screens/MovieListScreen.tsx:81-88 | toggling a non-favorite twice restores the favorites list exactly |
| `MovieListScreen.ToggleTwiceMovesToEnd` | src/screens/MovieListScreen.tsx:81-88 | toggling a favorite twice moves its id to the end of the list, carrying the record passed to the toggle: the result is the list without that id, followed by that record |
| `MovieListScreen.FirstPageShows` | src/screens/MovieListScreen.tsx:53-59 | a successful first-page load shows page 1 of the filtered catalogue |
| `MovieListScreen.NextPageShows` | src/screens/MovieListScreen.tsx:53-59 | appending the next page to pages `1..p` shows pages `1..p+1` |
| `MovieListScreen.ShownPagesArePrefix` | src/screens/MovieListScreen.tsx:53-59 | the accumulated list is the first `10 * page` movies of the filtered catalogue, and all of them once `hasMore` is false |
| `MovieListScreen.ListScreen.constructor` | src/screens/MovieListScreen.tsx:26-32 | the initial state variables: no movies, loading, not loading more, no error, empty query, page 1, more to load |
| `MovieListScreen.ListScreen.BeginLoad` | src/screens/MovieListScreen.tsx:42-47 | before the request: page 1 raises `loading`, a later page raises `loadingMore`; the error is cleared; nothing else changes |
| `MovieListScreen.ListScreen.CompleteLoad` | src/screens/MovieListScreen.tsx:49-65 | after the request: on success page 1 replaces the list, a later page is appended, and `hasMore` and `page` are set; on failure only the error changes; both spinners are lowered; a page-1 success establishes and a next-page success preserves "the list is pages `1..page` of the filtered catalogue" |
| `MovieListScreen.ListScreen.LoadMovies` | src/screens/MovieListScreen.tsx:40-66 | a load run to completion: the list, `page` and `hasMore` as in `CompleteLoad`, with no error on success and the fixed message on failure; a page-1 success shows page 1 of the filtered catalogue, and a success at `page + 1` for the same query and catalogue keeps the list equal to pages `1..page` |
| `MovieListScreen.ListScreen.HandleSearch` | src/screens/MovieListScreen.tsx:68-73 | records the query, resets `page` to 1 and `hasMore` to true, and starts a first-page load |
| `MovieListScreen.ListScreen.HandleLoadMore` | src/screens/MovieListScreen.tsx:75-79 | starts loading page `page + 1` exactly when the screen's state says no load-more is in flight and more is available, and changes nothing otherwise; the page it asks for is never page 1 |
| `MovieListScreen.ListScreen.ToggleFavorite` | src/screens/MovieListScreen.tsx:81-88 | the favorites store's list becomes `Toggled` of the old list: removed when its id is listed, added otherwise |

## Left out

- HTTP (`axios`), the catalogue URL and `console.error` logging are not modelled. A fetch's outcome is a parameter.
- Status codes and error messages inside `authService` (`'Invalid email or password'`, `'No token received'`, the backend's `error` field) are not modelled. Every one of them ends as a thrown error, and the thunks replace it with their own message, so `Exchange.Refused` stands for all of them.
- `AsyncStorage` is not modelled. The favorites reducers' write-behind `setItem('favorites', …)` is a side effect with no effect on state. The token write in `authService` folds into `Exchange`. The token read and removal are parameters.
- `loadFavorites` (src/store/favoritesSlice.ts:35-44) is not modelled. Neither `App.tsx`, which dispatches only `checkAuth` (App.tsx:17), nor any screen dispatches it.
- `src/services/movieService.ts` is not part of this model. `fetchMovies` and `fetchMovieDetails` take its outcome as a parameter.
- Rendering, navigation, the other screens (`HomeScreen`, `LoginScreen`, `FavoritesScreen`), `ProtectedRoute` and form validation are not modelled.
- The `toggleFavorite` of `MovieDetailsScreen` (src/screens/MovieDetailsScreen.tsx:53-62) is not modelled separately. It duplicates the list screen's toggle, guarded by the movie having loaded.
- Concurrency is not modelled. Two loads of the screen may be in flight at once and settle out of order, and the model cannot express their interleaving. `BeginLoad` and `CompleteLoad` are separate so that the `loadingMore` guard of `handleLoadMore` means something, but a caller pairs them.
- `MovieListScreen.ListScreen.CompleteLoad`: the shown-pages property is established by a page-1 success and preserved by a success at `page + 1` for the same query and catalogue. A sequence of loads with different queries, such as `LoadMovies(1, "a", c)` followed by `LoadMovies(2, "b", c)`, shows pages of two different filters, and the model promises nothing about such a list.
- `MovieListScreen.ListScreen.HandleLoadMore`: the guard is evaluated against the current state. In the source it reads the `loadingMore` and `page` of the last render (src/screens/MovieListScreen.tsx:76), so two `onEndReached` events before a re-render can both pass it and request the same page twice. The model does not capture that stale-closure window.
- `MovieListScreen.ListScreen.LoadMovies`: the query is an explicit parameter. In the source `loadMovies` reads the `searchQuery` captured by its render. After `handleSearch(text)` that is still the previous query, because `setSearchQuery` has not re-rendered yet. The model does not capture React's deferred state updates.
- `MovieApi.ToLower`: `toLowerCase` is modelled for ASCII letters only. Unicode case mapping is not modelled.
- JavaScript numbers are modelled as unbounded integers. Ratings are reals. Fractional or `NaN` page numbers are not modelled.
- `MovieApi.Paginate`: the body follows `slice` for every page number, including negative start indices. The window properties are stated only for `page >= 1` and `limit >= 0`, the only values the screen passes.
