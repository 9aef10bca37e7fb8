/**
 * The movie entity: the base `Movie` class and its five genre variants
 * (action, comedy, drama, horror, sci-fi), folded into one class whose
 * `genre` tag is fixed at construction and whose `extra` field carries the
 * one attribute each variant adds. `Review` is a value owned by its movie.
 */
module Movies {
  import opened JsStrings

  datatype Genre = General | Action | Comedy | Drama | Horror | SciFi

  /** `getGenre()` of the base class and of each variant. */
  function GenreTag(g: Genre): string
  {
    match g
    case General => "General"
    case Action => "ACTION"
    case Comedy => "COMEDY"
    case Drama => "DRAMA"
    case Horror => "HORROR"
    case SciFi => "SCI-FI"
  }

  /** The lower-cased `getGenre()` tag of each variant. */
  function LowerTag(g: Genre): string
  {
    match g
    case General => "general"
    case Action => "action"
    case Comedy => "comedy"
    case Drama => "drama"
    case Horror => "horror"
    case SciFi => "sci-fi"
  }

  /** `getGenre().toLowerCase()` is that lower-cased tag. */
  lemma LowerTagIsLower(g: Genre)
    ensures Lower(GenreTag(g)) == LowerTag(g)
  {
    match g
    case General => assert Lower("General") == "general";
    case Action => assert Lower("ACTION") == "action";
    case Comedy => assert Lower("COMEDY") == "comedy";
    case Drama => assert Lower("DRAMA") == "drama";
    case Horror => assert Lower("HORROR") == "horror";
    case SciFi => assert Lower("SCI-FI") == "sci-fi";
  }

  /**
   * The variant's own attribute: the action variant's stunt list, or the
   * laugh meter / emotional impact / scare level / tech level of the other four.
   */
  datatype Extra = NoExtra | Stunts(stunts: seq<string>) | Level(level: int)

  /** Which attribute a freshly constructed variant starts with. */
  function InitialExtra(g: Genre): (e: Extra)
    ensures ExtraFits(g, e)
  {
    match g
    case General => NoExtra
    case Action => Stunts([])
    case _ => Level(0)
  }

  /** The attribute belongs to the variant, and a numeric level lies in [0, 10]. */
  predicate ExtraFits(g: Genre, e: Extra)
  {
    match g
    case General => e.NoExtra?
    case Action => e.Stunts?
    case _ => e.Level? && 0 <= e.level <= 10
  }

  /** `Math.max(0, Math.min(10, level))`, the clamp every level setter applies. */
  function Clamp(level: int): (r: int)
    ensures 0 <= r <= 10
    ensures 0 <= level <= 10 ==> r == level
    ensures level < 0 ==> r == 0
    ensures 10 < level ==> r == 10
  {
    if level < 0 then 0 else if level > 10 then 10 else level
  }

  /** A user rating is 0 (not yet rated) or a whole number of stars from 1 to 5. */
  predicate RatingInRange(r: int)
  {
    r == 0 || 1 <= r <= 5
  }

  /** A review: author, text, the rating given with it, and its creation time. */
  datatype Review = Review(author: string, text: string, rating: int, date: nat)

  /** The flattened snapshot `getMovieInfo()` hands to the modal and to storage. */
  datatype MovieInfo = MovieInfo(
    title: string, year: int, director: string, plot: string, poster: string,
    imdbRating: string, runtime: string, actors: string, imdbID: string,
    userRating: int, reviews: seq<Review>, genre: string)

  class Movie {
    const title: string
    const year: int
    const director: string
    const plot: string
    const poster: string
    const imdbRating: string
    const runtime: string
    const actors: string
    const imdbID: string
    const dateAdded: nat
    const genre: Genre

    var userRating: int
    var reviews: seq<Review>
    var extra: Extra

    ghost predicate Valid()
      reads this
    {
      RatingInRange(userRating) && ExtraFits(genre, extra)
    }

    /** A new movie of the given variant: unrated, without reviews, added at time `now`. */
    constructor (title: string, year: int, director: string, plot: string, poster: string,
                 imdbRating: string, runtime: string, actors: string, imdbID: string,
                 genre: Genre, now: nat)
      ensures Valid()
      ensures this.title == title && this.year == year && this.director == director
      ensures this.plot == plot && this.poster == poster && this.imdbRating == imdbRating
      ensures this.runtime == runtime && this.actors == actors && this.imdbID == imdbID
      ensures this.genre == genre && dateAdded == now
      ensures userRating == 0 && reviews == [] && extra == InitialExtra(genre)
    {
      this.title, this.year, this.director, this.plot, this.poster := title, year, director, plot, poster;
      this.imdbRating, this.runtime, this.actors, this.imdbID := imdbRating, runtime, actors, imdbID;
      this.genre, dateAdded := genre, now;
      userRating, reviews, extra := 0, [], InitialExtra(genre);
    }

    /** `getUserRating()`: never outside 0 (unrated) and 1..5. */
    function GetUserRating(): (r: int)
      reads this
      requires Valid()
      ensures RatingInRange(r)
      ensures r > 0 <==> userRating > 0
    {
      userRating
    }

    /**
     * `setUserRating(rating)`: the rating changes exactly when 1 <= rating <= 5;
     * `ok` is false where the source logs its error and keeps the old rating.
     */
    method SetUserRating(rating: int) returns (ok: bool)
      requires Valid()
      modifies this`userRating
      ensures Valid()
      ensures ok <==> 1 <= rating <= 5
      ensures userRating == if ok then rating else old(userRating)
    {
      if 1 <= rating <= 5 {
        userRating := rating;
        ok := true;
      } else {
        ok := false;
      }
    }

    /** `addReview(review)`: appended at the end, nothing dropped or merged. */
    method AddReview(review: Review)
      modifies this`reviews
      ensures reviews == old(reviews) + [review]
      ensures |reviews| == |old(reviews)| + 1 && reviews[|reviews| - 1] == review
    {
      reviews := reviews + [review];
    }

    /** `getReviews()`: every review ever added, oldest first. */
    function GetReviews(): (r: seq<Review>)
      reads this
      ensures |r| == |reviews| && forall i :: 0 <= i < |r| ==> r[i] == reviews[i]
    {
      reviews
    }

    /** `getGenre()`: the tag the variant reports; only the base movie says "General". */
    function GetGenre(): (tag: string)
      ensures tag == "General" <==> genre == General
    {
      GenreTag(genre)
    }

    /** `getMovieInfo()`: a snapshot of the current rating, reviews and genre tag. */
    function Info(): (info: MovieInfo)
      reads this
      ensures info.imdbID == imdbID && info.title == title && info.year == year
      ensures info.userRating == userRating && info.reviews == reviews
      ensures info.genre == GetGenre()
      ensures Valid() ==> RatingInRange(info.userRating)
    {
      MovieInfo(title, year, director, plot, poster, imdbRating, runtime, actors, imdbID,
                userRating, reviews, GenreTag(genre))
    }

    /** `ActionMovie.addStunt(stunt)`: the stunt list grows by one at the end. */
    method AddStunt(stunt: string)
      requires Valid() && genre == Action
      modifies this`extra
      ensures Valid()
      ensures extra == Stunts(old(extra).stunts + [stunt])
    {
      extra := Stunts(extra.stunts + [stunt]);
    }

    /** `ComedyMovie.setLaughMeter(level)`. */
    method SetLaughMeter(level: int)
      requires Valid() && genre == Comedy
      modifies this`extra
      ensures Valid()
      ensures extra == Level(Clamp(level))
    {
      extra := Level(Clamp(level));
    }

    /** `DramaMovie.setEmotionalImpact(level)`. */
    method SetEmotionalImpact(level: int)
      requires Valid() && genre == Drama
      modifies this`extra
      ensures Valid()
      ensures extra == Level(Clamp(level))
    {
      extra := Level(Clamp(level));
    }

    /** `HorrorMovie.setScareLevel(level)`. */
    method SetScareLevel(level: int)
      requires Valid() && genre == Horror
      modifies this`extra
      ensures Valid()
      ensures extra == Level(Clamp(level))
    {
      extra := Level(Clamp(level));
    }

    /** `SciFiMovie.setTechLevel(level)`. */
    method SetTechLevel(level: int)
      requires Valid() && genre == SciFi
      modifies this`extra
      ensures Valid()
      ensures extra == Level(Clamp(level))
    {
      extra := Level(Clamp(level));
    }
  }
}
