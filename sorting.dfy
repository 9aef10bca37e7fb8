/**
 * The orders `User.sortCollection` sorts by, and the sort itself. The
 * comparators order titles ascending, and years, user ratings and dates added
 * descending (largest first). JavaScript's `Array.prototype.sort` is stable;
 * it is modelled here by a stable insertion sort on a fresh sequence.
 */
module Sorting {
  import opened Wrappers
  import opened JsStrings
  import opened Movies

  datatype Order = ByTitle | ByYear | ByRating | ByDateAdded

  /** The `switch (sortBy)` of `sortCollection`: an unknown key sorts nothing. */
  function OrderFor(sortBy: string): (o: Option<Order>)
    ensures o == Some(ByTitle) <==> sortBy == "title"
    ensures o == Some(ByYear) <==> sortBy == "year"
    ensures o == Some(ByRating) <==> sortBy == "rating"
    ensures o == Some(ByDateAdded) <==> sortBy == "dateAdded"
  {
    if sortBy == "title" then Some(ByTitle)
    else if sortBy == "year" then Some(ByYear)
    else if sortBy == "rating" then Some(ByRating)
    else if sortBy == "dateAdded" then Some(ByDateAdded)
    else None
  }

  /** The comparator of order `o` lets `a` stand before `b`. */
  predicate Precedes(o: Order, a: Movie, b: Movie)
    reads a, b
  {
    match o
    case ByTitle => LexLe(a.title, b.title)
    case ByYear => a.year >= b.year
    case ByRating => a.userRating >= b.userRating
    case ByDateAdded => a.dateAdded >= b.dateAdded
  }

  ghost predicate SortedBy(o: Order, s: seq<Movie>)
    reads s
  {
    forall i, j :: 0 <= i < j < |s| ==> Precedes(o, s[i], s[j])
  }

  /** Of any two movies, one may stand before the other. */
  lemma PrecedesTotal(o: Order, a: Movie, b: Movie)
    ensures Precedes(o, a, b) || Precedes(o, b, a)
  {
    if o == ByTitle {
      LexLeTotal(a.title, b.title);
    }
  }

  lemma PrecedesTransitive(o: Order, a: Movie, b: Movie, c: Movie)
    requires Precedes(o, a, b) && Precedes(o, b, c)
    ensures Precedes(o, a, c)
  {
    if o == ByTitle {
      LexLeTransitive(a.title, b.title, c.title);
    }
  }

  /** Puts `m` in front of the first movie it may precede. */
  function Insert(o: Order, m: Movie, s: seq<Movie>): (r: seq<Movie>)
    reads m, s
    ensures multiset(r) == multiset(s) + multiset{m}
  {
    if s == [] then [m]
    else if Precedes(o, m, s[0]) then [m] + s
    else
      assert s == [s[0]] + s[1..];
      [s[0]] + Insert(o, m, s[1..])
  }

  /**
   * Insertion sort: the tail is sorted first, then the head is inserted. The
   * result holds the same movies, each as often as before.
   */
  function SortBy(o: Order, s: seq<Movie>): (r: seq<Movie>)
    reads s
    ensures multiset(r) == multiset(s)
  {
    if s == [] then []
    else
      var sortedTail := SortBy(o, s[1..]);
      assert multiset(s) == multiset(s[1..]) + multiset{s[0]} by {
        assert s == [s[0]] + s[1..];
      }
      assert forall i | 0 <= i < |sortedTail| :: sortedTail[i] in multiset(s);
      Insert(o, s[0], sortedTail)
  }

  /** A movie that may stand before `m` and before all of `t` may stand before all of the insertion. */
  lemma {:induction false} InsertBounded(o: Order, p: Movie, m: Movie, t: seq<Movie>)
    requires Precedes(o, p, m)
    requires forall j :: 0 <= j < |t| ==> Precedes(o, p, t[j])
    ensures forall j :: 0 <= j < |Insert(o, m, t)| ==> Precedes(o, p, Insert(o, m, t)[j])
  {
    if t != [] && !Precedes(o, m, t[0]) {
      InsertBounded(o, p, m, t[1..]);
    }
  }

  lemma {:induction false} InsertSorted(o: Order, m: Movie, s: seq<Movie>)
    requires SortedBy(o, s)
    ensures SortedBy(o, Insert(o, m, s))
  {
    if s == [] {
    } else if Precedes(o, m, s[0]) {
      forall j | 0 < j < |s| ensures Precedes(o, m, s[j]) {
        PrecedesTransitive(o, m, s[0], s[j]);
      }
    } else {
      PrecedesTotal(o, m, s[0]);
      InsertSorted(o, m, s[1..]);
      InsertBounded(o, s[0], m, s[1..]);
    }
  }

  /** The sort's result is in order `o` throughout. */
  lemma {:induction false} SortBySorted(o: Order, s: seq<Movie>)
    ensures SortedBy(o, SortBy(o, s))
  {
    if s != [] {
      SortBySorted(o, s[1..]);
      InsertSorted(o, s[0], SortBy(o, s[1..]));
    }
  }
}
