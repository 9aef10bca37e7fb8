/**
 * The `User` aggregate: a display name, a running review counter, and the
 * movie collection, a JavaScript `Map` keyed by IMDb id. A `Map` iterates in
 * insertion order and `set` on a present key keeps that key's place, so the
 * collection is kept as the sequence of keys in insertion order together with
 * a map from key to movie.
 */
module Users {
  import opened Wrappers
  import opened JsStrings
  import opened Movies
  import opened Sorting

  predicate Distinct(s: seq<string>)
  {
    forall i, j :: 0 <= i < j < |s| ==> s[i] != s[j]
  }

  /** `s` with every `x` taken out and the rest left in order: `Map.delete` on the key order. */
  function Without(s: seq<string>, x: string): seq<string>
  {
    if s == [] then []
    else if s[0] == x then Without(s[1..], x)
    else [s[0]] + Without(s[1..], x)
  }

  /**
   * Deleting `x` removes exactly `x`, keeps the keys distinct, and shortens
   * a distinct order by one when `x` was in it.
   */
  lemma {:induction false} WithoutKeeps(s: seq<string>, x: string)
    ensures forall y :: y in Without(s, x) <==> y in s && y != x
    ensures x !in s ==> Without(s, x) == s
    ensures Distinct(s) ==> Distinct(Without(s, x))
    ensures Distinct(s) && x in s ==> |Without(s, x)| == |s| - 1
  {
    if s != [] {
      WithoutKeeps(s[1..], x);
      assert s == [s[0]] + s[1..];
      if s[0] != x {
        assert Distinct(s) ==> Distinct(s[1..]) && s[0] !in Without(s[1..], x);
      }
    }
  }

  /** Deleting a key keeps a first key that differs from it. */
  lemma WithoutCons(c: string, t: seq<string>, x: string)
    requires c != x
    ensures Without([c] + t, x) == [c] + Without(t, x)
  {
    assert ([c] + t)[0] == c && ([c] + t)[1..] == t;
  }

  /** Deleting a key closes the gap: the keys before and after it keep their order. */
  lemma {:induction false} WithoutClosesGap(a: seq<string>, x: string, b: seq<string>)
    requires x !in a && x !in b
    ensures Without(a + [x] + b, x) == a + b
  {
    if a == [] {
      var s := [x] + b;
      assert a + [x] + b == s && s[0] == x && s[1..] == b;
      WithoutKeeps(b, x);
    } else {
      var c, t := a[0], a[1..];
      assert a == [c] + t;
      assert a + [x] + b == [c] + (t + [x] + b);
      WithoutClosesGap(t, x, b);
      WithoutCons(c, t + [x] + b, x);
      assert a + b == [c] + (t + b);
    }
  }

  /** `words.map(word => word[0]).join('')`: an empty word gives `undefined`, which `join` drops. */
  function Heads(words: seq<string>): string
  {
    if words == [] then ""
    else (if words[0] == "" then "" else [words[0][0]]) + Heads(words[1..])
  }

  /** The characters of `s` that begin a word: not a space, and first or after a space. */
  function WordStarts(s: string, afterSpace: bool): string
  {
    if s == [] then ""
    else if s[0] == ' ' then WordStarts(s[1..], true)
    else (if afterSpace then [s[0]] else "") + WordStarts(s[1..], false)
  }

  /** Splitting on spaces and taking each word's first character picks out the word starts. */
  lemma {:induction false} HeadsOfSplit(s: string, atStart: bool)
    ensures Heads(if atStart then Split(s, ' ') else Split(s, ' ')[1..]) == WordStarts(s, atStart)
  {
    if s != [] {
      HeadsOfSplit(s[1..], s[0] == ' ' || !atStart);
      if s[0] != ' ' {
        var rest := Split(s[1..], ' ');
        HeadsOfSplit(s[1..], false);
        assert Split(s, ' ')[1..] == rest[1..];
      }
    }
  }

  /** The sum the `reduce` in `getAverageRating` computes, unrated movies counting 0. */
  function SumRatings(ms: seq<Movie>): int
    reads ms
  {
    if ms == [] then 0 else SumRatings(ms[..|ms| - 1]) + ms[|ms| - 1].userRating
  }

  lemma {:induction false} SumRatingsBounds(ms: seq<Movie>)
    requires forall i :: 0 <= i < |ms| ==> ms[i].Valid()
    ensures 0 <= SumRatings(ms) <= 5 * |ms|
  {
    if ms != [] {
      SumRatingsBounds(ms[..|ms| - 1]);
    }
  }

  /** A movie's tag equals the query once both are lower-cased. */
  predicate TagMatches(g: Genre, query: string)
  {
    Lower(GenreTag(g)) == Lower(query)
  }

  /** Querying by a variant's tag, in any letter case, matches that variant only. */
  lemma TagMatchesOnlyItsGenre(h: Genre, g: Genre, query: string)
    requires Lower(query) == Lower(GenreTag(g))
    ensures TagMatches(h, query) <==> h == g
  {
    LowerTagIsLower(h);
    LowerTagIsLower(g);
  }

  /** `r` is `s` with some elements left out and the others in their original order. */
  predicate SubsequenceOf<T(==)>(r: seq<T>, s: seq<T>)
  {
    if r == [] then true
    else if s == [] then false
    else (r[0] == s[0] && SubsequenceOf(r[1..], s[1..])) || SubsequenceOf(r, s[1..])
  }

  /**
   * `ms.filter(movie => keep(movie genre))`: the movies whose genre passes
   * `keep`, in the order of `ms`.
   */
  function Filter(ms: seq<Movie>, keep: Genre -> bool): seq<Movie>
  {
    if ms == [] then []
    else if keep(ms[0].genre) then [ms[0]] + Filter(ms[1..], keep)
    else Filter(ms[1..], keep)
  }

  /** The filter keeps the movies it selects in the order of `ms`. */
  lemma {:induction false} FilterInOrder(ms: seq<Movie>, keep: Genre -> bool)
    ensures SubsequenceOf(Filter(ms, keep), ms)
  {
    if ms != [] {
      FilterInOrder(ms[1..], keep);
      var r, t := Filter(ms, keep), Filter(ms[1..], keep);
      if keep(ms[0].genre) {
        assert r[0] == ms[0] && r[1..] == t;
      } else if r != [] {
        assert SubsequenceOf(r, ms[1..]);
      }
    }
  }

  /** The filter holds no movie more often than `ms` does. */
  lemma {:induction false} FilterWithin(ms: seq<Movie>, keep: Genre -> bool)
    ensures multiset(Filter(ms, keep)) <= multiset(ms)
  {
    if ms != [] {
      FilterWithin(ms[1..], keep);
      assert ms == [ms[0]] + ms[1..];
    }
  }

  /** Every movie the filter keeps passes the test. */
  lemma {:induction false} FilterOnlyMatches(ms: seq<Movie>, keep: Genre -> bool)
    ensures forall i :: 0 <= i < |Filter(ms, keep)| ==> keep(Filter(ms, keep)[i].genre)
  {
    if ms != [] {
      FilterOnlyMatches(ms[1..], keep);
    }
  }

  /** Every movie of `ms` that passes the test is kept. */
  lemma {:induction false} FilterAllMatches(ms: seq<Movie>, keep: Genre -> bool)
    ensures forall i :: 0 <= i < |ms| && keep(ms[i].genre) ==> ms[i] in Filter(ms, keep)
  {
    if ms != [] {
      FilterAllMatches(ms[1..], keep);
      var r, t := Filter(ms, keep), Filter(ms[1..], keep);
      forall i | 0 < i < |ms| && keep(ms[i].genre) ensures ms[i] in r {
        assert ms[1..][i - 1] == ms[i] && ms[i] in t;
      }
    }
  }

  /** Filtering a concatenation filters each part and keeps the parts in order. */
  lemma {:induction false} FilterAppend(a: seq<Movie>, b: seq<Movie>, keep: Genre -> bool)
    ensures Filter(a + b, keep) == Filter(a, keep) + Filter(b, keep)
  {
    if a == [] {
      assert a + b == b;
    } else {
      assert (a + b)[0] == a[0] && (a + b)[1..] == a[1..] + b;
      FilterAppend(a[1..], b, keep);
    }
  }

  /** A single movie is kept exactly when it passes the test. */
  lemma FilterSingle(m: Movie, keep: Genre -> bool)
    ensures Filter([m], keep) == if keep(m.genre) then [m] else []
  {
    assert [m][1..] == [];
  }

  datatype Stats = Stats(movieCount: nat, reviewCount: nat, averageRating: real)

  /** Each key appears once, keys and map agree, and every movie sits under its own id. */
  ghost predicate KeyOrder(keys: seq<string>, movies: map<string, Movie>)
  {
    && Distinct(keys)
    && |keys| == |movies|
    && (forall k :: k in movies <==> k in keys)
    && (forall k :: k in movies ==> movies[k].imdbID == k)
  }

  /** `Map.set`: a new id joins the end of the order, a present one keeps its place. */
  lemma KeyOrderPut(keys: seq<string>, movies: map<string, Movie>, m: Movie)
    requires KeyOrder(keys, movies)
    ensures KeyOrder(if m.imdbID in movies then keys else keys + [m.imdbID], movies[m.imdbID := m])
  {
    var id := m.imdbID;
    if id !in movies {
      assert |movies[id := m]| == |movies| + 1;
    } else {
      assert movies[id := m].Keys == movies.Keys;
    }
  }

  /** `Map.delete`: the id leaves both the map and the order. */
  lemma KeyOrderDelete(keys: seq<string>, movies: map<string, Movie>, id: string)
    requires KeyOrder(keys, movies)
    ensures KeyOrder(Without(keys, id), movies - {id})
    ensures id in movies ==> |Without(keys, id)| == |keys| - 1
  {
    WithoutKeeps(keys, id);
    if id in movies {
      assert movies.Keys == (movies - {id}).Keys + {id};
    } else {
      assert movies - {id} == movies;
    }
  }

  class User {
    var name: string
    var reviewCount: nat
    /** The keys of the collection in insertion order. */
    var keys: seq<string>
    var movies: map<string, Movie>

    /** The key order and the map describe the same collection. */
    ghost predicate Valid()
      reads this
    {
      KeyOrder(keys, movies)
    }

    /** Every movie in the collection keeps its own invariant. */
    ghost predicate MoviesValid()
      reads this, movies.Values
    {
      forall k :: k in movies ==> movies[k].Valid()
    }

    constructor (name: string)
      ensures Valid() && MoviesValid()
      ensures this.name == name && reviewCount == 0
      ensures keys == [] && movies == map[]
    {
      this.name := name;
      reviewCount := 0;
      keys, movies := [], map[];
    }

    /**
     * `getInitials()`: the first character of each space-separated word,
     * upper-cased, at most two of them.
     */
    function GetInitials(): (r: string)
      reads this
      ensures |r| <= 2
      ensures r == Prefix(Upper(WordStarts(name, true)), 2)
    {
      HeadsOfSplit(name, true);
      Prefix(Upper(Heads(Split(name, ' '))), 2)
    }

    /**
     * `addMovie(movie)`: stored under its id, replacing any movie already
     * there; a new id goes to the end of the order, a present one keeps its place.
     */
    method AddMovie(m: Movie) returns (ok: bool)
      requires Valid()
      modifies this`keys, this`movies
      ensures Valid() && ok
      ensures movies == old(movies)[m.imdbID := m]
      ensures keys == if m.imdbID in old(movies) then old(keys) else old(keys) + [m.imdbID]
      ensures GetMovie(m.imdbID) == Some(m)
      ensures MovieCount() == old(MovieCount()) + (if m.imdbID in old(movies) then 0 else 1)
      ensures old(MoviesValid()) && m.Valid() ==> MoviesValid()
    {
      KeyOrderPut(keys, movies, m);
      if m.imdbID !in movies {
        keys := keys + [m.imdbID];
      }
      movies := movies[m.imdbID := m];
      ok := true;
      if old(MoviesValid()) && m.Valid() {
        forall k | k in movies ensures movies[k].Valid() {
          if k != m.imdbID {
            assert movies[k] == old(movies)[k];
          }
        }
      }
    }

    /** `removeMovie(imdbID)`: reports whether the id was present; the other entries keep their order. */
    method RemoveMovie(id: string) returns (existed: bool)
      requires Valid()
      modifies this`keys, this`movies
      ensures Valid()
      ensures existed == (id in old(movies))
      ensures movies == old(movies) - {id}
      ensures keys == Without(old(keys), id)
      ensures !HasMovie(id)
      ensures old(MoviesValid()) ==> MoviesValid()
    {
      existed := id in movies;
      KeyOrderDelete(keys, movies, id);
      keys, movies := Without(keys, id), movies - {id};
      assert Valid();
      assert id !in movies;
      if old(MoviesValid()) {
        forall k | k in movies ensures movies[k].Valid() {
          assert movies[k] == old(movies)[k];
        }
      }
    }

    /** `getMovie(imdbID)`: the movie stored under the id, `undefined` (None) when absent. */
    function GetMovie(id: string): (r: Option<Movie>)
      reads this
      requires Valid()
      ensures r.Some? <==> id in movies
      ensures r.Some? ==> r.value == movies[id] && r.value.imdbID == id
    {
      if id in movies then Some(movies[id]) else None
    }

    /** `getAllMovies()`: every stored movie once, in the collection's key order. */
    function AllMovies(): (r: seq<Movie>)
      reads this
      requires Valid()
      ensures |r| == |movies|
      ensures forall i :: 0 <= i < |r| ==> r[i] == movies[keys[i]] && r[i].imdbID == keys[i]
      ensures forall k :: k in movies ==> movies[k] in r
      ensures forall i :: 0 <= i < |r| ==> r[i] in movies.Values
    {
      var ks, ms := keys, movies;
      seq(|ks|, i requires 0 <= i < |ks| && ks[i] in ms => ms[ks[i]])
    }

    /** `getMoviesByGenre(genre)`: the stored movies whose tag matches, ignoring case. */
    function MoviesByGenre(query: string): (r: seq<Movie>)
      reads this
      requires Valid()
      ensures SubsequenceOf(r, AllMovies())
      ensures multiset(r) <= multiset(AllMovies())
      ensures forall i :: 0 <= i < |r| ==> TagMatches(r[i].genre, query)
      ensures forall k :: k in movies && TagMatches(movies[k].genre, query) ==> movies[k] in r
    {
      var all, keep := AllMovies(), g => TagMatches(g, query);
      FilterInOrder(all, keep);
      FilterWithin(all, keep);
      FilterOnlyMatches(all, keep);
      FilterAllMatches(all, keep);
      Filter(all, keep)
    }

    /** `getMovieCount()`. */
    function MovieCount(): (n: nat)
      reads this
      requires Valid()
      ensures n == |AllMovies()| == |keys|
    {
      |movies|
    }

    /** `hasMovie(imdbID)`: exactly when `getMovie` finds something. */
    function HasMovie(id: string): (b: bool)
      reads this
      requires Valid()
      ensures b <==> GetMovie(id).Some?
    {
      id in movies
    }

    /**
     * `addReviewToMovie(imdbID, reviewText, rating)`: on a known id, one review
     * by this user is appended to that movie and the counter goes up by one; on
     * an unknown id nothing changes.
     */
    method AddReviewToMovie(id: string, text: string, rating: int, now: nat) returns (ok: bool)
      requires Valid()
      modifies this`reviewCount, if id in movies then {movies[id]} else {}
      ensures Valid()
      ensures ok == (id in movies)
      ensures ok ==> movies[id].reviews == old(movies[id].reviews) + [Review(name, text, rating, now)]
      ensures ok ==> movies[id].userRating == old(movies[id].userRating)
      ensures ok ==> movies[id].extra == old(movies[id].extra)
      ensures reviewCount == old(reviewCount) + (if ok then 1 else 0)
      ensures old(MoviesValid()) ==> MoviesValid()
    {
      var found := GetMovie(id);
      if found.Some? {
        var movie := found.value;
        movie.AddReview(Review(name, text, rating, now));
        reviewCount := reviewCount + 1;
        ok := true;
      } else {
        ok := false;
      }
    }

    /**
     * `getAverageRating()` without the rounding: 0 for an empty collection,
     * otherwise the sum of the user ratings over the number of movies.
     */
    function AverageRating(): (avg: real)
      reads this, movies.Values
      requires Valid()
      ensures AllMovies() == [] ==> avg == 0.0
      ensures AllMovies() != [] ==> IsMean(avg, SumRatings(AllMovies()), |AllMovies()|)
    {
      var all := AllMovies();
      Mean(SumRatings(all), |all|)
    }

    /** `getStats()`: count, counter and average, read at one moment. */
    function GetStats(): (s: Stats)
      reads this, movies.Values
      requires Valid()
      ensures s.movieCount == |AllMovies()| && s.reviewCount == reviewCount
      ensures s.averageRating == AverageRating()
    {
      Stats(MovieCount(), reviewCount, AverageRating())
    }

    /**
     * `sortCollection(sortBy)`: a sorted copy of `getAllMovies()`; the collection
     * itself is not touched. An unknown key returns the movies in key order.
     */
    function SortCollection(sortBy: string := "title"): (r: seq<Movie>)
      reads this, movies.Values
      requires Valid()
      ensures multiset(r) == multiset(AllMovies())
      ensures OrderFor(sortBy).Some? ==> SortedBy(OrderFor(sortBy).value, r)
      ensures OrderFor(sortBy).None? ==> r == AllMovies()
    {
      var all := AllMovies();
      match OrderFor(sortBy)
      case None => all
      case Some(o) =>
        SortBySorted(o, all);
        SortBy(o, all)
    }
  }

  /** With every movie valid, the average lies between 0 and 5 stars. */
  lemma AverageRatingBounds(u: User)
    requires u.Valid() && u.MoviesValid()
    ensures 0.0 <= u.AverageRating() <= 5.0
  {
    var all := u.AllMovies();
    if |all| > 0 {
      SumRatingsBounds(all);
      MeanBounds(SumRatings(all), |all|);
    }
  }

  /** `avg` is the mean of `n` values adding up to `total`: `n` copies of it add up to `total`. */
  predicate IsMean(avg: real, total: int, n: nat)
  {
    avg * (n as real) == total as real
  }

  /** `total / n` for a non-empty collection, and 0 for an empty one. */
  function Mean(total: int, n: nat): (avg: real)
    ensures n == 0 ==> avg == 0.0
    ensures n > 0 ==> IsMean(avg, total, n)
  {
    if n == 0 then 0.0 else (total as real) / (n as real)
  }

  lemma MeanBounds(total: int, n: int)
    requires 0 < n && 0 <= total <= 5 * n
    ensures 0.0 <= (total as real) / (n as real) <= 5.0
  {
    var avg := (total as real) / (n as real);
    assert avg * (n as real) == total as real;
    assert (5.0 - avg) * (n as real) == (5 * n - total) as real;
  }
}
