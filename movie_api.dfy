/** The movie API service with its HTTP call abstracted away: the awaited
    `GET` of the whole catalogue is a parameter, and everything after it
    (the page window, `hasMore`, the case-insensitive title filter) is pure. */
module MovieApi {
  import opened Outcomes

  /** Default page size of `getMovies` and `searchMovies`. */
  const ItemsPerPage: int := 10

  /** A catalogue entry. Only `id` and `title` take part in any decision;
      the other fields are carried unchanged. */
  datatype Movie = Movie(
    id: int,
    title: string,
    year: int,
    director: string,
    genre: seq<string>,
    plot: string,
    rating: real,
    poster: string)

  datatype PaginatedResponse = PaginatedResponse(movies: seq<Movie>, hasMore: bool)

  function Min(a: int, b: int): int { if a <= b then a else b }

  // ---------------------------------------------------------------------
  // Array.prototype.slice

  /** An index argument of `slice` resolved against the length: a negative
      index counts from the end, and the result is clamped to `[0, len]`. */
  function Relative(k: int, len: nat): (r: nat)
    ensures r <= len
    ensures 0 <= k ==> r == Min(k, len)
  {
    if k < 0 then (if len + k < 0 then 0 else len + k)
    else if k > len then len
    else k
  }

  /** `s.slice(start, end)` with JavaScript's semantics for every integer
      pair, negative and out-of-range indices included. */
  function JsSlice<T>(s: seq<T>, start: int, end: int): (r: seq<T>)
    ensures |r| <= |s|
    ensures forall x :: x in r ==> x in s
    ensures 0 <= start <= end ==> r == s[Min(start, |s|)..Min(end, |s|)]
  {
    var from, to := Relative(start, |s|), Relative(end, |s|);
    if from < to then s[from..to] else []
  }

  // ---------------------------------------------------------------------
  // Pagination

  /** `startIndex` of a 1-based page. */
  function PageStart(page: int, limit: int): int { (page - 1) * limit }

  /** `(page - 1) * limit + limit == page * limit`, and a 1-based page
      starts at a non-negative index. */
  lemma PageArithmetic(page: int, limit: int)
    ensures PageStart(page, limit) + limit == page * limit
    ensures page >= 1 && limit >= 0 ==> PageStart(page, limit) >= 0
  {
    if page >= 1 && limit >= 0 {
      assert (page - 1) * limit >= 0;
    }
  }

  /** The window `[startIndex, startIndex + limit)` and the `hasMore` flag
      that `getMovies` and `searchMovies` compute over an in-memory list. */
  function Paginate(all: seq<Movie>, page: int, limit: int): (r: PaginatedResponse)
    ensures forall m :: m in r.movies ==> m in all
    ensures r.hasMore <==> page * limit < |all|
    ensures page >= 1 && limit >= 0 ==>
      0 <= PageStart(page, limit) && r.movies == all[Min(PageStart(page, limit), |all|)..Min(PageStart(page, limit) + limit, |all|)]
  {
    var startIndex := PageStart(page, limit);
    var endIndex := startIndex + limit;
    PageArithmetic(page, limit);
    PaginatedResponse(JsSlice(all, startIndex, endIndex), endIndex < |all|)
  }

  /** For a 1-based page: at most `limit` movies, the `i`-th of them being
      the movie at `startIndex + i`, and an empty page without more once
      `startIndex` reaches the end of the list. */
  lemma PageWindow(all: seq<Movie>, page: int, limit: int)
    requires page >= 1 && limit >= 0
    ensures var r := Paginate(all, page, limit);
      && |r.movies| <= limit
      && |r.movies| == (if PageStart(page, limit) >= |all| then 0 else Min(limit, |all| - PageStart(page, limit)))
      && (forall i :: 0 <= i < |r.movies| ==>
            PageStart(page, limit) + i < |all| && r.movies[i] == all[PageStart(page, limit) + i])
      && (PageStart(page, limit) >= |all| ==> r.movies == [] && !r.hasMore)
  {
    PageArithmetic(page, limit);
  }

  /** Pages `1..k` of `all`, concatenated in order: what a client that loads
      page after page has accumulated. */
  function PagesUpTo(all: seq<Movie>, k: nat, limit: int): seq<Movie>
  {
    if k == 0 then [] else PagesUpTo(all, k - 1, limit) + Paginate(all, k, limit).movies
  }

  /** Loading pages `1..k` yields exactly the first `min(k * limit, |all|)`
      movies: no movie is skipped or repeated. */
  lemma {:induction false} PagesUpToIsPrefix(all: seq<Movie>, k: nat, limit: nat)
    ensures k * limit >= 0
    ensures PagesUpTo(all, k, limit) == all[..Min(k * limit, |all|)]
  {
    if k > 0 {
      PagesUpToIsPrefix(all, k - 1, limit);
      var a := Min((k - 1) * limit, |all|);
      var b := Min(k * limit, |all|);
      assert (k - 1) * limit + limit == k * limit;
      PageArithmetic(k, limit);
      assert Paginate(all, k, limit).movies == all[a..b];
      assert all[..a] + all[a..b] == all[..b];
    }
  }

  /** Once a page reports `hasMore == false`, the pages loaded so far make up
      the whole list. */
  lemma PagesUpToComplete(all: seq<Movie>, k: nat, limit: nat)
    requires k >= 1 && !Paginate(all, k, limit).hasMore
    ensures PagesUpTo(all, k, limit) == all
  {
    PagesUpToIsPrefix(all, k, limit);
  }

  // ---------------------------------------------------------------------
  // Case-insensitive title search

  /** `toLowerCase` restricted to ASCII letters. */
  function LowerChar(c: char): char
  {
    if 'A' <= c <= 'Z' then (c as int + 32) as char else c
  }

  function ToLower(s: string): string
  {
    seq(|s|, i requires 0 <= i < |s| => LowerChar(s[i]))
  }

  /** `text.includes(part)`, scanning start positions from the left. */
  predicate Includes(text: string, part: string)
    decreases |text|
  {
    part <= text || (text != [] && Includes(text[1..], part))
  }

  predicate OccursAt(text: string, part: string, i: int)
  {
    0 <= i && i + |part| <= |text| && text[i..i + |part|] == part
  }

  /** The scan finds the part exactly when it occurs at some position. */
  lemma {:induction false} IncludesIffOccurs(text: string, part: string)
    ensures Includes(text, part) <==> exists i :: OccursAt(text, part, i)
    decreases |text|
  {
    if part <= text {
      assert OccursAt(text, part, 0);
    } else if text == [] {
    } else {
      IncludesIffOccurs(text[1..], part);
      if exists i :: OccursAt(text[1..], part, i) {
        var i :| OccursAt(text[1..], part, i);
        assert text[1..][i..i + |part|] == text[i + 1..i + 1 + |part|];
        assert OccursAt(text, part, i + 1);
      }
      if exists i :: OccursAt(text, part, i) {
        var i :| OccursAt(text, part, i);
        assert i != 0;
        assert text[1..][i - 1..i - 1 + |part|] == text[i..i + |part|];
        assert OccursAt(text[1..], part, i - 1);
      }
    }
  }

  /** The filter predicate of `searchMovies`. */
  predicate TitleMatches(m: Movie, query: string)
  {
    Includes(ToLower(m.title), ToLower(query))
  }

  /** `allMovies.filter(...)`: the movies whose title contains the query,
      ignoring case, kept in catalogue order. */
  function Matching(all: seq<Movie>, query: string): (r: seq<Movie>)
    ensures |r| <= |all|
    ensures forall m :: m in r ==> m in all && TitleMatches(m, query)
    ensures forall i :: 0 <= i < |all| && TitleMatches(all[i], query) ==> all[i] in r
  {
    if all == [] then []
    else (if TitleMatches(all[0], query) then [all[0]] else []) + Matching(all[1..], query)
  }

  /** The filter keeps relative order: filtering a concatenation is the
      concatenation of the filtered parts. */
  lemma {:induction false} MatchingAppend(a: seq<Movie>, b: seq<Movie>, query: string)
    ensures Matching(a + b, query) == Matching(a, query) + Matching(b, query)
  {
    if a != [] {
      assert (a + b)[0] == a[0];
      assert (a + b)[1..] == a[1..] + b;
      MatchingAppend(a[1..], b, query);
      var head := if TitleMatches(a[0], query) then [a[0]] else [];
      assert Matching(a + b, query) == head + (Matching(a[1..], query) + Matching(b, query));
    } else {
      assert a + b == b;
    }
  }

  /** Every title contains the empty string, so the empty query keeps the
      whole catalogue. */
  lemma {:induction false} MatchingEmptyQuery(all: seq<Movie>)
    ensures Matching(all, "") == all
  {
    if all != [] {
      assert ToLower("") == "";
      assert TitleMatches(all[0], "");
      MatchingEmptyQuery(all[1..]);
    }
  }

  lemma LowerCharIdempotent(c: char)
    ensures LowerChar(LowerChar(c)) == LowerChar(c)
  {
  }

  /** Searching is insensitive to the case of the query. */
  lemma {:induction false} MatchingIgnoresQueryCase(all: seq<Movie>, query: string)
    ensures Matching(all, ToLower(query)) == Matching(all, query)
  {
    assert ToLower(ToLower(query)) == ToLower(query) by {
      forall i | 0 <= i < |query| ensures ToLower(ToLower(query))[i] == ToLower(query)[i] {
        LowerCharIdempotent(query[i]);
      }
    }
    if all != [] {
      MatchingIgnoresQueryCase(all[1..], query);
    }
  }

  // ---------------------------------------------------------------------
  // The service functions

  /** `movieApi.getMovies(page = 1, limit = 10)` once the catalogue has been
      fetched (or the fetch threw). */
  function GetMovies(response: Response<seq<Movie>>, page: int := 1, limit: int := ItemsPerPage)
    : (r: ApiResult<PaginatedResponse>)
    ensures r.Ok? <==> response.Received?
    ensures r.Err? ==> r.message == "Failed to fetch movies"
    ensures r.Ok? ==> r.value == Paginate(response.data, page, limit)
  {
    match response
    case Received(allMovies) => Ok(Paginate(allMovies, page, limit))
    case Failed(_) => Err("Failed to fetch movies")
  }

  /** `movieApi.getMovieById(id)`: the fetched record, or the fixed error. */
  function GetMovieById(response: Response<Movie>): (r: ApiResult<Movie>)
    ensures r.Ok? <==> response.Received?
    ensures r.Ok? ==> r.value == response.data
    ensures r.Err? ==> r.message == "Failed to fetch movie details"
  {
    match response
    case Received(movie) => Ok(movie)
    case Failed(_) => Err("Failed to fetch movie details")
  }

  /** `movieApi.searchMovies(query, page = 1, limit = 10)`: filter by title,
      then paginate the filtered list. */
  function SearchMovies(response: Response<seq<Movie>>, query: string, page: int := 1, limit: int := ItemsPerPage)
    : (r: ApiResult<PaginatedResponse>)
    ensures r.Ok? <==> response.Received?
    ensures r.Err? ==> r.message == "Failed to search movies"
    ensures r.Ok? ==> r.value == Paginate(Matching(response.data, query), page, limit)
    ensures r.Ok? ==> forall m :: m in r.value.movies ==> m in response.data && TitleMatches(m, query)
  {
    match response
    case Received(allMovies) => Ok(Paginate(Matching(allMovies, query), page, limit))
    case Failed(_) => Err("Failed to search movies")
  }

  /** With the empty query, a successful search returns what `getMovies`
      returns for the same page. */
  lemma SearchEmptyQueryIsGetMovies(all: seq<Movie>, page: int, limit: int)
    ensures SearchMovies(Received(all), "", page, limit) == GetMovies(Received(all), page, limit)
  {
    MatchingEmptyQuery(all);
  }

  // ---------------------------------------------------------------------
  // Worked scenarios

  function Untitled(id: int): Movie
  {
    Movie(id, "Untitled", 2000, "", [], "", 5.0, "")
  }

  /** A 25-movie catalogue with the default page size: pages 1 and 2 report
      more, page 3 holds the last 5 and reports none. */
  lemma TwentyFiveMovieCatalogue()
    ensures var all := seq(25, i => Untitled(i));
      && GetMovies(Received(all), 1).value.hasMore
      && GetMovies(Received(all), 2).value.hasMore
      && GetMovies(Received(all), 3).value.movies == all[20..]
      && !GetMovies(Received(all), 3).value.hasMore
      && GetMovies(Received(all), 4).value == PaginatedResponse([], false)
  {
  }

  /** A two-movie catalogue fits on the first default page. */
  lemma TwoMovieCatalogue()
    ensures var alpha, beta := Untitled(1).(title := "Alpha"), Untitled(2).(title := "Beta");
      GetMovies(Received([alpha, beta])) == Ok(PaginatedResponse([alpha, beta], false))
  {
    var all := [Untitled(1).(title := "Alpha"), Untitled(2).(title := "Beta")];
    assert all[0..2] == all;
  }

  /** The lower-cased forms of the titles and query of `CaseVariedSearch`. */
  lemma BatmanLowerCase()
    ensures ToLower("batMan") == "batman"
    ensures ToLower("Batman") == "batman"
    ensures ToLower("Alpha") == "alpha"
    ensures ToLower("A Batman") == "a batman"
  {
  }

  /** Which of the lower-cased titles contain "batman". */
  lemma BatmanIncludes()
    ensures Includes("batman", "batman")
    ensures !Includes("alpha", "batman")
    ensures Includes("a batman", "batman")
  {
    IncludesIffOccurs("alpha", "batman");
    IncludesIffOccurs("a batman", "batman");
    assert OccursAt("a batman", "batman", 2);
  }

  /** A mixed-case query finds every title that contains it in any case,
      in catalogue order, and skips the rest. */
  lemma CaseVariedSearch()
    ensures var batman, alpha, aBatman := Untitled(1).(title := "Batman"), Untitled(2).(title := "Alpha"), Untitled(3).(title := "A Batman");
      Matching([batman, alpha, aBatman], "batMan") == [batman, aBatman]
  {
    var batman, alpha, aBatman := Untitled(1).(title := "Batman"), Untitled(2).(title := "Alpha"), Untitled(3).(title := "A Batman");
    BatmanLowerCase();
    BatmanIncludes();
    assert TitleMatches(batman, "batMan");
    assert !TitleMatches(alpha, "batMan");
    assert TitleMatches(aBatman, "batMan");
    var all := [batman, alpha, aBatman];
    assert all[1..] == [alpha, aBatman];
    assert all[1..][1..] == [aBatman];
    assert all[1..][1..][1..] == [];
    assert Matching([aBatman], "batMan") == [aBatman] + Matching([], "batMan");
    assert Matching([alpha, aBatman], "batMan") == [] + Matching([aBatman], "batMan");
    assert Matching(all, "batMan") == [batman] + Matching([alpha, aBatman], "batMan");
  }
}
