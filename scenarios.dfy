/**
 * A session walked through the model's contracts: a fresh user adds a
 * movie whose catalog genre is "Action Thriller", rates it 4 and reviews it.
 */
module Scenarios {
  import opened Movies
  import opened Factory
  import opened Users

  /** The first half of the session: "Ada" adds "Heat" and rates it 4. */
  method AdaAddsHeat() returns (user: User, movie: Movie, tag: string)
    ensures fresh(user) && fresh(movie)
    ensures user.Valid() && user.keys == ["tt1"] && "tt1" in user.movies && user.movies["tt1"] == movie
    ensures movie.userRating == 4 && user.reviewCount == 0 && tag == "ACTION"
  {
    user := new User("Ada");
    var data := MovieData("Heat", 1995, "Michael Mann", "", "", "8.3", "170 min", "", "tt1", "Action Thriller");
    movie := CreateMovie(data, 0);
    ClassifyActionThriller();
    tag := movie.GetGenre();
    var added := user.AddMovie(movie);
    var rated := movie.SetUserRating(4);
  }

  /** The whole session: after a review, the tag is ACTION, one review is counted and the average is 4. */
  method AdaScenario() returns (tag: string, reviewCount: nat, average: real)
    ensures tag == "ACTION" && reviewCount == 1 && average == 4.0
  {
    var user, movie;
    user, movie, tag := AdaAddsHeat();
    var reviewed := user.AddReviewToMovie("tt1", "Great fights", 4, 1);
    var all := user.AllMovies();
    assert |all| == 1 && all[0] == movie;
    assert all == [movie];
    assert all[..0] == [];
    assert SumRatings(all) == 4;
    assert |user.movies| == 1;
    var avg := user.AverageRating();
    assert IsMean(avg, 4, 1);
    var stats := user.GetStats();
    reviewCount, average := stats.reviewCount, stats.averageRating;
  }
}
