# Movie library collection model in Dafny

This project models the in-memory collection model of a client-side movie
library (`movie-library.js`). A user looks up movies in the OMDb catalog, adds
them to a personal collection, rates and reviews them, and then filters, sorts
and summarises the collection. The model covers four parts:

- **Movie** (`Movies` module, `movies.dfy`). The base `Movie` class and its five
  genre subclasses become one class. A `const genre: Genre` tag (General,
  Action, Comedy, Drama, Horror, SciFi) replaces the subclass. A
  `var extra: Extra` field holds the attribute each subclass adds: the action
  movie's stunt list, or the laugh meter / emotional impact / scare level /
  tech level. The private `#userRating` starts at 0. Only a rating from 1 to 5
  is stored. Reviews are appended in order. `Review` is a datatype (author,
  text, rating, date).
- **MovieFactory** (`Factory` module, `factory.dfy`). `Classify` is the
  first-match dispatch on the lower-cased genre string. `CreateMovie` builds
  the chosen variant.
- **User** (`Users` module, `users.dfy`). The `Map` keyed by IMDb id is kept as
  `keys: seq<string>` (insertion order) plus `movies: map<string, Movie>`.
  `Map.set` on a present key keeps that key's place in `keys`, and
  `Map.delete` takes the key out of the order. This is the order
  `getAllMovies` returns. `reviewCount` is a counter that only
  `addReviewToMovie` increments. Removing a movie, overwriting it, or calling
  `movie.addReview` directly does not adjust it.
- **Sorting** (`Sorting` module, `sorting.dfy`). These are the four
  `sortCollection` comparators: title ascending; year, user rating and date
  added descending. The sort itself is a stable insertion sort on a fresh
  sequence, so the collection is never reordered.

`JsStrings` (`js_strings.dfy`) models the JavaScript string built-ins the
library calls. `Wrappers` holds `Option`, which stands for `undefined` from
`getMovie`. `Scenarios` walks a short session through the contracts: the
user "Ada" adds an "Action Thriller", rates it 4 and reviews it. She ends
with an ACTION movie, one review and an average of 4.

Modelling choices:
- `new Date()` becomes a natural-number timestamp argument `now`.
- Year is an `int`; `parseInt` is not modelled.
- The fields the source never reassigns are `const`: title, year, director,
  plot, poster, imdbRating, runtime, actors, imdbID, dateAdded and the genre
  tag. `getDateAdded()` is the read of `dateAdded`.
- `setUserRating` returns `ok`. A false `ok` stands for the source's
  `console.error` path; the source itself returns `undefined`.
- The level setters exist only on their own subclass. In the model they
  therefore require the matching `genre`.
- Three behaviours of the code are kept as written:
  - A review's rating is the `rating` argument of `addReviewToMovie`
    (movie-library.js:294), not the movie's current user rating.
  - `reviewCount` counts the successful `addReviewToMovie` calls. It is not
    kept equal to the total number of reviews.
  - `createMovie` calls `Genre.toLowerCase()` without a guard
    (movie-library.js:349). The model's record always carries a genre string.

## Model

| member | source | states |
|---|---|---|
| Movies.Movie.constructor | movie-library.js:8-25 | a new movie carries the given fields, user rating 0, no reviews, the variant's initial attribute, and `dateAdded` = now |
| Movies.InitialExtra | movie-library.js:98-184 | each variant starts with an attribute that fits it: base none, action an empty stunt list, the other four level 0 |
| Movies.Movie.GetUserRating | movie-library.js:28-30 | the rating read back is always 0 (unrated) or in 1..5 |
| Movies.Movie.SetUserRating | movie-library.js:33-39 | the rating becomes `rating` exactly when 1 <= rating <= 5, otherwise it is unchanged; the invariant 0-or-1..5 is kept |
| Movies.Movie.AddReview | movie-library.js:47-49 | the review list is the old list plus the new review at the end; nothing else changes |
| Movies.Movie.GetReviews | movie-library.js:52-54 | every review added so far, in the order added |
| Movies.Movie.GetGenre | movie-library.js:74-76 | the tag is "General" exactly for the base movie (the variants' tags are covered by Factory.ClassifyGenreTag) |
| Movies.Movie.Info | movie-library.js:79-94 | the snapshot carries the current rating (0 or 1..5), reviews, id and genre tag |
| Movies.Movie.AddStunt | movie-library.js:115-117 | an action movie's stunt list gains the stunt at the end |
| Movies.Clamp | movie-library.js:136 | the stored level is always in [0,10], equals the input when that is in [0,10], and is 0 below / 10 above |
| Movies.Movie.SetLaughMeter | movie-library.js:135-137 | a comedy's level becomes the clamped input; the invariant level-in-[0,10] is kept |
| Movies.Movie.SetEmotionalImpact | movie-library.js:155-157 | a drama's level becomes the clamped input; the invariant is kept |
| Movies.Movie.SetScareLevel | movie-library.js:175-177 | a horror movie's level becomes the clamped input; the invariant is kept |
| Movies.Movie.SetTechLevel | movie-library.js:195-197 | a sci-fi movie's level becomes the clamped input; the invariant is kept |
| JsStrings.IncludesIff | movie-library.js:351 | the left-to-right `includes` scan succeeds exactly when the keyword occurs at some position |
| JsStrings.LexLeTotal | movie-library.js:329 | any two titles are comparable in the title order |
| JsStrings.LexLeTransitive | movie-library.js:329 | the title order is transitive |
| JsStrings.LexLeAntisymmetric | movie-library.js:329 | in the code-order stand-in for `localeCompare`, titles that sort no later than each other are equal (`localeCompare` itself can return 0 for distinct strings) |
| Factory.Classify | movie-library.js:349-364 | the chosen variant is mentioned by the lower-cased genre string, and no variant earlier in the order action, comedy, drama, horror, sci-fi is mentioned; no mention gives the base movie |
| Factory.ClassifyIgnoresCase | movie-library.js:349 | the choice does not depend on letter case |
| Factory.ClassifySingleKeyword | movie-library.js:351-360 | a string mentioning exactly one variant yields that variant |
| Factory.ClassifyNoKeyword | movie-library.js:361-364 | a string mentioning no variant yields the base movie |
| Factory.ClassifyGenreTag | movie-library.js:349-364 | feeding any variant's `getGenre()` tag back to the factory yields that same variant ("General" gives the base movie) |
| Factory.ClassifyActionThriller | movie-library.js:351-352 | "Action Thriller" yields the ACTION variant |
| Factory.CreateMovie | movie-library.js:345-365 | a fresh, valid, unrated movie without reviews, of the classified variant, carrying every field of the record |
| Sorting.OrderFor | movie-library.js:327-338 | the keys "title", "year", "rating", "dateAdded" select their comparators, and every other key selects none |
| Sorting.PrecedesTotal | movie-library.js:329-335 | every comparator orders any two movies one way or the other |
| Sorting.PrecedesTransitive | movie-library.js:329-335 | every comparator is transitive |
| Sorting.SortBy | movie-library.js:329-335 | the sort returns a permutation of its input |
| Sorting.SortBySorted | movie-library.js:329-335 | the sort's result is ordered throughout: titles ascending, years / ratings / dates added non-increasing |
| Users.User.constructor | movie-library.js:232-236 | a new user has the given name, an empty collection and review count 0 |
| Users.HeadsOfSplit | movie-library.js:240-243 | splitting on spaces and joining each word's first character gives exactly the characters that start a word |
| Users.User.GetInitials | movie-library.js:239-246 | the initials are at most two characters: the first two word-start characters of the name, upper-cased |
| Users.KeyOrderPut | movie-library.js:251 | `Map.set` keeps the keys distinct and in step with the map: a new id joins the end of the order, a present one keeps its place, and every movie stays under its own id |
| Users.KeyOrderDelete | movie-library.js:260 | `Map.delete` keeps the keys distinct and in step with the map, and a present id shortens the order by one |
| Users.User.AddMovie | movie-library.js:249-256 | returns true; afterwards `getMovie(id)` is the movie, other entries are unchanged, a new id is appended to the order while an existing one keeps its place, and the count grows by 1 or 0 |
| Users.WithoutKeeps | movie-library.js:260 | deleting a key removes exactly that key, keeps the keys distinct, and shortens the order by one when the key was present |
| Users.WithoutClosesGap | movie-library.js:260 | deleting a key leaves the keys before and after it in their order |
| Users.User.RemoveMovie | movie-library.js:259-261 | returns whether the id was present; afterwards `hasMovie(id)` is false and every other entry keeps its movie and its place |
| Users.User.GetMovie | movie-library.js:264-266 | finds a movie exactly for stored ids, and the movie found carries that id |
| Users.User.AllMovies | movie-library.js:269-271 | every stored movie appears, once per key, in insertion order |
| Users.FilterInOrder | movie-library.js:275-277 | `filter` keeps the selected movies in the order of its input: the result is a subsequence of the input |
| Users.FilterWithin | movie-library.js:275-277 | `filter` returns no movie more often than its input holds it |
| Users.FilterOnlyMatches | movie-library.js:275-277 | every movie `filter` returns passes the test |
| Users.FilterAllMatches | movie-library.js:275-277 | every movie of the input that passes the test is returned |
| Users.FilterAppend | movie-library.js:275-277 | filtering a concatenation is the concatenation of the filtered parts, in the same order |
| Users.FilterSingle | movie-library.js:275-277 | a single movie is returned exactly when it passes the test; with `FilterAppend` this fixes the result for every input |
| Users.TagMatchesOnlyItsGenre | movie-library.js:275-277 | a query equal to a variant's tag in any letter case matches that variant and no other |
| Users.User.MoviesByGenre | movie-library.js:274-278 | the result is a subsequence of `getAllMovies()`, so it keeps the collection order; every movie in it matches the genre, ignoring case; every matching movie in the collection is in it, and none more often than in `getAllMovies()` |
| Users.User.MovieCount | movie-library.js:281-283 | the count is the number of movies `getAllMovies` returns |
| Users.User.HasMovie | movie-library.js:286-288 | true exactly when `getMovie` finds a movie |
| Users.User.AddReviewToMovie | movie-library.js:291-300 | a missing id returns false and changes nothing, the counter included; a present id returns true, appends Review(name, text, rating, now) to that movie, and adds exactly 1 to the counter |
| Users.SumRatingsBounds | movie-library.js:316-318 | the sum of the ratings lies between 0 and 5 per movie |
| Users.Mean | movie-library.js:314-320 | 0 for no values; otherwise `n` copies of the mean add up to the total |
| Users.User.AverageRating | movie-library.js:312-321 | 0 when `getAllMovies()` is empty; otherwise the average, taken as many times as `getAllMovies()` has movies, adds up to the sum of their user ratings, unrated counting 0 |
| Users.AverageRatingBounds | movie-library.js:312-321 | the average lies between 0 and 5 |
| Users.User.GetStats | movie-library.js:303-309 | the stats are the movie count, the counter and the average, all read from the same state |
| Users.User.SortCollection | movie-library.js:324-339 | the result is a permutation of `getAllMovies()`, ordered by the chosen key; an unknown key returns `getAllMovies()` unchanged; the default key is "title"; the collection is not modified |
| Scenarios.AdaAddsHeat | movie-library.js:249-256 | after "Ada" adds "Heat" (genre "Action Thriller") and rates it 4, the collection holds just that movie under "tt1", its tag is ACTION, its rating 4 and no review is counted |
| Scenarios.AdaScenario | movie-library.js:291-321 | user "Ada" adds an "Action Thriller", rates it 4 and reviews it: the tag is ACTION, the counter is 1 and the average is 4 |

## Left out

- `OMDBService` (movie-library.js:370-412): asynchronous network calls to the external catalog.
- `StorageManager` (movie-library.js:416-445): `localStorage` and JSON serialisation with no logic of its own. The save/load round trip is therefore not modelled.
- `displayCard`, `displayReview` and the subclasses' `card.replace` overrides: HTML rendering.
- `Review.getFormattedDate`: locale-dependent date formatting.
- `script.js`: DOM, event and storage glue, including its `deleteMovie` filter.
- Users.User.AverageRating: `toFixed(1)` is left out. The source rounds to one decimal and returns a string; the model returns the exact real quotient.
- Users.User.SortCollection: `localeCompare` becomes lexicographic order on character codes. `parseInt` of the year becomes an `int` field. Stability of the sort is not stated, though the insertion sort used is stable.
- Case mapping: `toLowerCase` and `toUpperCase` map only the ASCII letters A-Z / a-z. Unicode case mapping is not modelled, and neither is the UTF-16 code-unit view of `word[0]`.
- Movies.Movie.SetUserRating: ratings and levels are integers. The source's number comparisons would also accept a fractional rating such as 2.5, or a NaN level.
- Users.User.AddMovie: the `instanceof Movie` check cannot fail in a typed model, so the `false` branch is absent.
- Factory.CreateMovie: a record without a `Genre` makes `Genre.toLowerCase()` throw (movie-library.js:349). The model's record always carries a genre string, so that exception is not modelled.
- Movies.Movie.GetReviews: the source hands out the movie's own `reviews` array (movie-library.js:53), so a caller's `push` would change the movie. The model returns a value, so this aliasing is not captured.
- Movies.Movie.Info: `getMovieInfo` shares the same `reviews` array (movie-library.js:91). The model's snapshot is a value.
- Movies.Movie.GetGenre: the subclass-specific CSS class of the rendered card is not modelled.
