/** The favorites collection as a value: an ordered sequence of movies keyed on `id`.
    These are the pure list computations behind the home page's toggle button and
    the favorites page's remove button. */
module FavoritesList {
  import opened Wrappers
  import opened Movies

  /** The home page's `isFavorite`: some entry carries the movie's id. */
  predicate IsFavorite(favs: seq<Movie>, movie: Movie) {
    exists k | 0 <= k < |favs| :: favs[k].id == movie.id
  }

  /** No two entries share an id. */
  predicate UniqueIds(favs: seq<Movie>) {
    forall i, j | 0 <= i < j < |favs| :: favs[i].id != favs[j].id
  }

  /** `s` is `t` with some entries dropped, the rest in their original order. */
  predicate IsSubsequence<T(==)>(s: seq<T>, t: seq<T>)
    decreases |t|
  {
    s == [] || (t != [] && ((s[0] == t[0] && IsSubsequence(s[1..], t[1..])) || IsSubsequence(s, t[1..])))
  }

  /** The number of entries carrying the movie's id. */
  function Count(favs: seq<Movie>, movie: Movie): (n: nat)
    ensures n <= |favs|
    ensures n == 0 <==> !IsFavorite(favs, movie)
  {
    if favs == [] then 0
    else
      var rest := Count(favs[1..], movie);
      assert forall k | 0 < k < |favs| :: favs[k] == favs[1..][k - 1];
      (if favs[0].id == movie.id then 1 else 0) + rest
  }

  /** `prev.find(fav => fav.imdbID === movie.imdbID)`: the first entry with the movie's id. */
  function Find(favs: seq<Movie>, movie: Movie): (r: Option<Movie>)
    ensures r.Some? <==> IsFavorite(favs, movie)
    ensures r.Some? ==> exists k | 0 <= k < |favs| ::
      favs[k] == r.value && r.value.id == movie.id && forall j | 0 <= j < k :: favs[j].id != movie.id
  {
    if favs == [] then None
    else if favs[0].id == movie.id then Some(favs[0])
    else
      var r := Find(favs[1..], movie);
      assert forall k | 0 < k < |favs| :: favs[k] == favs[1..][k - 1];
      r
  }

  /** `favs.filter(fav => fav.imdbID !== movie.imdbID)`. The result keeps exactly the
      entries with another id, in their order, and no entry with the movie's id. */
  function Remove(favs: seq<Movie>, movie: Movie): (r: seq<Movie>)
    ensures !IsFavorite(r, movie)
    ensures forall m :: m in r <==> m in favs && m.id != movie.id
    ensures IsSubsequence(r, favs)
    ensures |r| == |favs| - Count(favs, movie)
  {
    if favs == [] then []
    else
      var rest := Remove(favs[1..], movie);
      if favs[0].id == movie.id then rest
      else
        assert ([favs[0]] + rest)[1..] == rest;
        [favs[0]] + rest
  }

  /** The updater passed to `setFavorites` by the home page's `toggleFavorite`: drop every
      entry with the movie's id if there is one, otherwise append the movie. */
  function Toggle(favs: seq<Movie>, movie: Movie): seq<Movie> {
    if Find(favs, movie).Some? then Remove(favs, movie) else favs + [movie]
  }

  /** Filtering out an id no entry carries changes nothing. */
  lemma {:induction false} RemoveAbsent(favs: seq<Movie>, movie: Movie)
    requires !IsFavorite(favs, movie)
    ensures Remove(favs, movie) == favs
  {
    if favs != [] {
      assert !IsFavorite(favs[1..], movie) by {
        forall k | 0 <= k < |favs[1..]| ensures favs[1..][k].id != movie.id {
          assert favs[1..][k] == favs[k + 1];
        }
      }
      RemoveAbsent(favs[1..], movie);
      assert favs[0].id != movie.id;
      assert favs == [favs[0]] + favs[1..];
    }
  }

  /** Removing the same movie twice gives the same list as removing it once. */
  lemma RemoveIdempotent(favs: seq<Movie>, movie: Movie)
    ensures Remove(Remove(favs, movie), movie) == Remove(favs, movie)
  {
    RemoveAbsent(Remove(favs, movie), movie);
  }

  /** Filtering distributes over concatenation. */
  lemma {:induction false} RemoveAppend(xs: seq<Movie>, ys: seq<Movie>, movie: Movie)
    ensures Remove(xs + ys, movie) == Remove(xs, movie) + Remove(ys, movie)
  {
    if xs == [] {
      assert xs + ys == ys;
    } else {
      assert (xs + ys)[1..] == xs[1..] + ys;
      RemoveAppend(xs[1..], ys, movie);
    }
  }

  /** The tail of a list with unique ids has unique ids and lacks the head's id. */
  lemma UniqueTail(favs: seq<Movie>)
    requires favs != [] && UniqueIds(favs)
    ensures UniqueIds(favs[1..]) && !IsFavorite(favs[1..], favs[0])
  {
    forall i, j | 0 <= i < j < |favs[1..]| ensures favs[1..][i].id != favs[1..][j].id {
      assert favs[1..][i] == favs[i + 1] && favs[1..][j] == favs[j + 1];
    }
    forall k | 0 <= k < |favs[1..]| ensures favs[1..][k].id != favs[0].id {
      assert favs[1..][k] == favs[k + 1];
    }
  }

  /** Putting a movie in front of a list that lacks its id keeps the ids unique. */
  lemma UniqueCons(movie: Movie, favs: seq<Movie>)
    requires UniqueIds(favs) && !IsFavorite(favs, movie)
    ensures UniqueIds([movie] + favs)
  {
    var r := [movie] + favs;
    forall i, j | 0 <= i < j < |r| ensures r[i].id != r[j].id {
      assert r[j] == favs[j - 1];
      if i > 0 {
        assert r[i] == favs[i - 1];
      }
    }
  }

  /** Filtering keeps unique ids unique. */
  lemma {:induction false} RemoveKeepsUnique(favs: seq<Movie>, movie: Movie)
    requires UniqueIds(favs)
    ensures UniqueIds(Remove(favs, movie))
  {
    if favs != [] {
      var rest := Remove(favs[1..], movie);
      UniqueTail(favs);
      RemoveKeepsUnique(favs[1..], movie);
      if favs[0].id != movie.id {
        assert !IsFavorite(rest, favs[0]) by {
          forall k | 0 <= k < |rest| ensures rest[k].id != favs[0].id {
            assert rest[k] in favs[1..];
            var j :| 0 <= j < |favs[1..]| && favs[1..][j] == rest[k];
          }
        }
        UniqueCons(favs[0], rest);
      }
    }
  }

  /** Toggling a movie that is present removes every entry with its id. */
  lemma TogglePresent(favs: seq<Movie>, movie: Movie)
    requires IsFavorite(favs, movie)
    ensures Toggle(favs, movie) == Remove(favs, movie)
    ensures !IsFavorite(Toggle(favs, movie), movie)
    ensures IsSubsequence(Toggle(favs, movie), favs)
    ensures |Toggle(favs, movie)| == |favs| - Count(favs, movie)
  {
  }

  /** Toggling a movie that is absent appends it, growing the list by one. */
  lemma ToggleAbsent(favs: seq<Movie>, movie: Movie)
    requires !IsFavorite(favs, movie)
    ensures Toggle(favs, movie) == favs + [movie]
    ensures |Toggle(favs, movie)| == |favs| + 1
  {
  }

  /** After a toggle, `isFavorite` answers the opposite of what it answered before. */
  lemma ToggleFlips(favs: seq<Movie>, movie: Movie)
    ensures IsFavorite(Toggle(favs, movie), movie) == !IsFavorite(favs, movie)
  {
    if !IsFavorite(favs, movie) {
      var r := favs + [movie];
      assert r[|favs|].id == movie.id;
    }
  }

  /** A toggle does not change whether any movie with another id is a favorite. */
  lemma ToggleOthers(favs: seq<Movie>, movie: Movie, other: Movie)
    requires other.id != movie.id
    ensures IsFavorite(Toggle(favs, movie), other) == IsFavorite(favs, other)
  {
    var r := Toggle(favs, movie);
    if IsFavorite(favs, other) {
      var k :| 0 <= k < |favs| && favs[k].id == other.id;
      assert favs[k] in r;
      var j :| 0 <= j < |r| && r[j] == favs[k];
    }
    if IsFavorite(r, other) {
      var j :| 0 <= j < |r| && r[j].id == other.id;
      assert r[j] in favs;
      var k :| 0 <= k < |favs| && favs[k] == r[j];
    }
  }

  /** A toggle keeps the ids unique. */
  lemma ToggleKeepsUnique(favs: seq<Movie>, movie: Movie)
    requires UniqueIds(favs)
    ensures UniqueIds(Toggle(favs, movie))
  {
    if IsFavorite(favs, movie) {
      RemoveKeepsUnique(favs, movie);
    } else {
      var r := favs + [movie];
      forall i, j | 0 <= i < j < |r| ensures r[i].id != r[j].id {
        if j == |favs| {
          assert r[i] == favs[i];
        } else {
          assert r[i] == favs[i] && r[j] == favs[j];
        }
      }
    }
  }

  /** Toggling the same movie twice, starting from a list that lacks its id, gives back
      the original list. */
  lemma ToggleTwiceAbsent(favs: seq<Movie>, movie: Movie)
    requires !IsFavorite(favs, movie)
    ensures Toggle(Toggle(favs, movie), movie) == favs
  {
    ToggleFlips(favs, movie);
    RemoveAppend(favs, [movie], movie);
    RemoveAbsent(favs, movie);
    assert Remove([movie], movie) == [];
  }

  /** Toggling twice from a list that holds the id drops every copy and appends the
      movie once, at the end. */
  lemma ToggleTwicePresent(favs: seq<Movie>, movie: Movie)
    requires IsFavorite(favs, movie)
    ensures Toggle(Toggle(favs, movie), movie) == Remove(favs, movie) + [movie]
  {
  }
}
