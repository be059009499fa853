/** The favorites slice: an ordered list of movies that the reducers keep
    free of duplicate ids. The reducers mutate the store's list in place;
    the write-behind persistence they trigger is not part of this model. */
module FavoritesSlice {
  import opened Outcomes
  import opened MovieApi

  /** Some entry of the list carries this id. */
  predicate HasId(movies: seq<Movie>, id: int)
  {
    exists i :: 0 <= i < |movies| && movies[i].id == id
  }

  /** No two entries share an id. */
  predicate DistinctIds(movies: seq<Movie>)
  {
    forall i, j :: 0 <= i < j < |movies| ==> movies[i].id != movies[j].id
  }

  /** Whether a non-empty list has an id: at its head or in its tail. */
  lemma HasIdUnfold(movies: seq<Movie>, id: int)
    requires movies != []
    ensures HasId(movies, id) <==> movies[0].id == id || HasId(movies[1..], id)
  {
    if HasId(movies, id) && movies[0].id != id {
      var i :| 0 <= i < |movies| && movies[i].id == id;
      assert movies[1..][i - 1].id == id;
    }
    if HasId(movies[1..], id) {
      var i :| 0 <= i < |movies[1..]| && movies[1..][i].id == id;
      assert movies[i + 1].id == id;
    }
  }

  /** A list without duplicate ids is its head followed by a duplicate-free
      tail that does not repeat the head's id. */
  lemma DistinctUnfold(movies: seq<Movie>)
    requires movies != []
    ensures DistinctIds(movies) <==> !HasId(movies[1..], movies[0].id) && DistinctIds(movies[1..])
  {
    var tail := movies[1..];
    if DistinctIds(movies) {
      forall i | 0 <= i < |tail| ensures tail[i].id != movies[0].id {
        assert tail[i] == movies[i + 1];
      }
      forall i, j | 0 <= i < j < |tail| ensures tail[i].id != tail[j].id {
        assert tail[i] == movies[i + 1] && tail[j] == movies[j + 1];
      }
    }
    if !HasId(tail, movies[0].id) && DistinctIds(tail) {
      forall i, j | 0 <= i < j < |movies| ensures movies[i].id != movies[j].id {
        assert movies[j] == tail[j - 1];
        if i > 0 {
          assert movies[i] == tail[i - 1];
        }
      }
    }
  }

  /** `movies.find(movie => movie.id === id)`: the first entry with the id. */
  function FindById(movies: seq<Movie>, id: int): (r: Option<Movie>)
    ensures r.Some? <==> HasId(movies, id)
    ensures r.Some? ==> r.value in movies && r.value.id == id
    ensures r.Some? ==> exists i :: 0 <= i < |movies| && movies[i] == r.value && !HasId(movies[..i], id)
  {
    if movies == [] then None
    else if movies[0].id == id then
      assert movies[..0] == [];
      Some(movies[0])
    else
      var r := FindById(movies[1..], id);
      HasIdUnfold(movies, id);
      if r.Some? then
        var i :| 0 <= i < |movies[1..]| && movies[1..][i] == r.value && !HasId(movies[1..][..i], id);
        assert movies[..i + 1][1..] == movies[1..][..i];
        HasIdUnfold(movies[..i + 1], id);
        assert movies[i + 1] == r.value;
        r
      else r
  }

  /** The list after `addFavorite(m)`. */
  function WithFavorite(movies: seq<Movie>, m: Movie): (r: seq<Movie>)
    ensures |r| == |movies| + (if HasId(movies, m.id) then 0 else 1)
    ensures r[..|movies|] == movies
    ensures !HasId(movies, m.id) ==> r[|movies|] == m
    ensures HasId(r, m.id)
    ensures DistinctIds(movies) ==> DistinctIds(r)
  {
    if FindById(movies, m.id).None? then
      var r := movies + [m];
      assert r[|movies|].id == m.id;
      r
    else
      movies
  }

  /** The list after `removeFavorite(id)`: `movies.filter(movie => movie.id !== id)`. */
  function WithoutId(movies: seq<Movie>, id: int): (r: seq<Movie>)
    ensures |r| <= |movies|
    ensures forall m :: m in r <==> m in movies && m.id != id
    ensures !HasId(r, id)
  {
    if movies == [] then []
    else (if movies[0].id == id then [] else [movies[0]]) + WithoutId(movies[1..], id)
  }

  /** Removal keeps the survivors in their original relative order: it
      distributes over concatenation. */
  lemma {:induction false} WithoutIdAppend(a: seq<Movie>, b: seq<Movie>, id: int)
    ensures WithoutId(a + b, id) == WithoutId(a, id) + WithoutId(b, id)
  {
    if a == [] {
      assert a + b == b;
    } else {
      assert (a + b)[0] == a[0];
      assert (a + b)[1..] == a[1..] + b;
      WithoutIdAppend(a[1..], b, id);
      var head := if a[0].id == id then [] else [a[0]];
      assert WithoutId(a + b, id) == head + (WithoutId(a[1..], id) + WithoutId(b, id));
    }
  }

  /** Removing an id that is not in the list changes nothing. */
  lemma {:induction false} WithoutAbsentId(movies: seq<Movie>, id: int)
    requires !HasId(movies, id)
    ensures WithoutId(movies, id) == movies
  {
    if movies != [] {
      HasIdUnfold(movies, id);
      WithoutAbsentId(movies[1..], id);
      assert [movies[0]] + movies[1..] == movies;
    }
  }

  /** `removeFavorite` is idempotent. */
  lemma RemoveIdempotent(movies: seq<Movie>, id: int)
    ensures WithoutId(WithoutId(movies, id), id) == WithoutId(movies, id)
  {
    WithoutAbsentId(WithoutId(movies, id), id);
  }

  /** Removal keeps a duplicate-free list duplicate-free. */
  lemma {:induction false} WithoutIdKeepsDistinct(movies: seq<Movie>, id: int)
    requires DistinctIds(movies)
    ensures DistinctIds(WithoutId(movies, id))
  {
    if movies != [] {
      var x, rest := movies[0], WithoutId(movies[1..], id);
      DistinctUnfold(movies);
      WithoutIdKeepsDistinct(movies[1..], id);
      if x.id != id {
        var r := [x] + rest;
        assert r[1..] == rest;
        assert !HasId(rest, x.id) by {
          forall k | 0 <= k < |rest| ensures rest[k].id != x.id {
            assert rest[k] in movies[1..];
            assert !HasId(movies[1..], x.id);
          }
        }
        DistinctUnfold(r);
      }
    }
  }

  /** Adding an id that is already present leaves the list unchanged. */
  lemma AddPresentIsNoOp(movies: seq<Movie>, m: Movie)
    requires HasId(movies, m.id)
    ensures WithFavorite(movies, m) == movies
  {
    var r := WithFavorite(movies, m);
    assert r == r[..|movies|];
  }

  /** `addFavorite` is idempotent: a second add of the same movie keeps the
      size and the contents. */
  lemma AddIdempotent(movies: seq<Movie>, m: Movie)
    ensures WithFavorite(WithFavorite(movies, m), m) == WithFavorite(movies, m)
  {
    AddPresentIsNoOp(WithFavorite(movies, m), m);
  }

  /** Adding a movie whose id is absent and then removing that id restores
      the original list exactly, order included. */
  lemma AddThenRemoveRestores(movies: seq<Movie>, m: Movie)
    requires !HasId(movies, m.id)
    ensures WithoutId(WithFavorite(movies, m), m.id) == movies
  {
    assert WithFavorite(movies, m) == movies + [m];
    WithoutIdAppend(movies, [m], m.id);
    WithoutAbsentId(movies, m.id);
    assert [m][1..] == [];
    assert WithoutId([m], m.id) == [];
  }

  /** The favorites state: the Immer draft that the reducers update. */
  class FavoritesStore {
    var movies: seq<Movie>

    /** `initialState`: no favorites. */
    constructor ()
      ensures movies == []
    {
      movies := [];
    }

    /** `favorites.some(fav => fav.id === id)`, as the screens ask it. */
    function IsFavorite(id: int): (b: bool)
      reads this
      ensures b <==> exists m :: m in movies && m.id == id
    {
      var b := FindById(movies, id).Some?;
      assert b ==> exists m :: m in movies && m.id == id by {
        if b { assert FindById(movies, id).value in movies; }
      }
      assert (exists m :: m in movies && m.id == id) ==> b by {
        if exists m :: m in movies && m.id == id {
          var m :| m in movies && m.id == id;
          var i :| 0 <= i < |movies| && movies[i] == m;
          assert HasId(movies, id);
        }
      }
      b
    }

    /** `addFavorite`: append the movie unless its id is already listed. */
    method AddFavorite(m: Movie)
      modifies this
      ensures movies == WithFavorite(old(movies), m)
      ensures HasId(movies, m.id)
      ensures old(DistinctIds(movies)) ==> DistinctIds(movies)
    {
      if FindById(movies, m.id).None? {
        movies := movies + [m];
      }
    }

    /** `removeFavorite`: drop every entry with the id. */
    method RemoveFavorite(id: int)
      modifies this
      ensures movies == WithoutId(old(movies), id)
      ensures !HasId(movies, id)
      ensures old(DistinctIds(movies)) ==> DistinctIds(movies)
    {
      if DistinctIds(movies) {
        WithoutIdKeepsDistinct(movies, id);
      }
      movies := WithoutId(movies, id);
    }

    /** `setFavorites`: replace the list wholesale, with no deduplication. */
    method SetFavorites(xs: seq<Movie>)
      modifies this
      ensures movies == xs
      ensures DistinctIds(movies) <==> DistinctIds(xs)
    {
      movies := xs;
    }
  }
}
