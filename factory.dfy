/**
 * `MovieFactory.createMovie`: picks the movie variant from the catalog
 * record's genre string. The string is lower-cased and searched for the
 * keywords of each variant in a fixed priority order; the first variant
 * whose keyword occurs wins, and a string that matches none yields the base
 * movie.
 */
module Factory {
  import opened JsStrings
  import opened Movies

  /** The catalog record the factory reads (its `Year` already a number). */
  datatype MovieData = MovieData(
    Title: string, Year: int, Director: string, Plot: string, Poster: string,
    imdbRating: string, Runtime: string, Actors: string, imdbID: string, Genre: string)

  /** The lower-cased genre string names variant `g` by one of its keywords. */
  predicate Mentions(lower: string, g: Genre)
  {
    match g
    case General => false
    case Action => Includes(lower, "action")
    case Comedy => Includes(lower, "comedy")
    case Drama => Includes(lower, "drama")
    case Horror => Includes(lower, "horror")
    case SciFi => Includes(lower, "sci-fi") || Includes(lower, "science fiction")
  }

  /** Position of a variant in the factory's test order (the base movie comes last). */
  function Priority(g: Genre): nat
  {
    match g
    case Action => 0
    case Comedy => 1
    case Drama => 2
    case Horror => 3
    case SciFi => 4
    case General => 5
  }

  /**
   * The variant `createMovie` constructs for a genre string: the mentioned
   * variant of least priority, or the base movie when none is mentioned.
   */
  function Classify(genre: string): (g: Genre)
    ensures g != General ==> Mentions(Lower(genre), g)
    ensures forall h :: Mentions(Lower(genre), h) ==> g != General && Priority(g) <= Priority(h)
  {
    var lower := Lower(genre);
    if Includes(lower, "action") then Action
    else if Includes(lower, "comedy") then Comedy
    else if Includes(lower, "drama") then Drama
    else if Includes(lower, "horror") then Horror
    else if Includes(lower, "sci-fi") || Includes(lower, "science fiction") then SciFi
    else General
  }

  /** The choice ignores letter case. */
  lemma ClassifyIgnoresCase(genre: string)
    ensures Classify(Lower(genre)) == Classify(genre)
  {
    LowerIdempotent(genre);
  }

  /** A genre string that mentions exactly one variant yields that variant. */
  lemma ClassifySingleKeyword(genre: string, g: Genre)
    requires Mentions(Lower(genre), g)
    requires forall h :: h != g ==> !Mentions(Lower(genre), h)
    ensures Classify(genre) == g
  {
  }

  /** A genre string that mentions no variant yields the base movie. */
  lemma ClassifyNoKeyword(genre: string)
    requires forall h :: !Mentions(Lower(genre), h)
    ensures Classify(genre) == General
  {
  }

  /** Which keywords a lower-cased tag contains: its own variant's, and no other. */
  predicate HasOnlyOwnKeyword(lower: string, g: Genre)
  {
    && (Includes(lower, "action") <==> g == Action)
    && (Includes(lower, "comedy") <==> g == Comedy)
    && (Includes(lower, "drama") <==> g == Drama)
    && (Includes(lower, "horror") <==> g == Horror)
    && (Includes(lower, "sci-fi") <==> g == SciFi)
    && !Includes(lower, "science fiction")
  }

  lemma GeneralKeywords(lower: string)
    requires lower == "general"
    ensures HasOnlyOwnKeyword(lower, General)
  {
    NotIncludesMissingChar(lower, "action", 1);
    NotIncludesMissingChar(lower, "comedy", 0);
    NotIncludesMissingChar(lower, "drama", 0);
    NotIncludesMissingChar(lower, "horror", 0);
    NotIncludesMissingChar(lower, "sci-fi", 0);
  }

  lemma ActionKeywords(lower: string)
    requires lower == "action"
    ensures HasOnlyOwnKeyword(lower, Action)
  {
    IncludesPrefix(lower, "action");
    NotIncludesMissingChar(lower, "comedy", 2);
    NotIncludesMissingChar(lower, "drama", 0);
    NotIncludesMissingChar(lower, "horror", 0);
    NotIncludesMissingChar(lower, "sci-fi", 0);
  }

  lemma ComedyKeywords(lower: string)
    requires lower == "comedy"
    ensures HasOnlyOwnKeyword(lower, Comedy)
  {
    NotIncludesMissingChar(lower, "action", 0);
    IncludesPrefix(lower, "comedy");
    NotIncludesMissingChar(lower, "drama", 1);
    NotIncludesMissingChar(lower, "horror", 0);
    NotIncludesMissingChar(lower, "sci-fi", 0);
  }

  lemma DramaKeywords(lower: string)
    requires lower == "drama"
    ensures HasOnlyOwnKeyword(lower, Drama)
  {
    NotIncludesMissingChar(lower, "action", 1);
    NotIncludesMissingChar(lower, "comedy", 0);
    IncludesPrefix(lower, "drama");
    NotIncludesMissingChar(lower, "horror", 0);
    NotIncludesMissingChar(lower, "sci-fi", 0);
  }

  lemma HorrorKeywords(lower: string)
    requires lower == "horror"
    ensures HasOnlyOwnKeyword(lower, Horror)
  {
    NotIncludesMissingChar(lower, "action", 0);
    NotIncludesMissingChar(lower, "comedy", 0);
    NotIncludesMissingChar(lower, "drama", 0);
    IncludesPrefix(lower, "horror");
    NotIncludesMissingChar(lower, "sci-fi", 0);
  }

  lemma SciFiKeywords(lower: string)
    requires lower == "sci-fi"
    ensures HasOnlyOwnKeyword(lower, SciFi)
  {
    NotIncludesMissingChar(lower, "action", 0);
    NotIncludesMissingChar(lower, "comedy", 1);
    NotIncludesMissingChar(lower, "drama", 0);
    NotIncludesMissingChar(lower, "horror", 0);
    IncludesPrefix(lower, "sci-fi");
  }

  lemma {:induction false} TagKeywords(lower: string, g: Genre)
    requires lower == LowerTag(g)
    ensures HasOnlyOwnKeyword(lower, g)
  {
    match g
    case General => GeneralKeywords(lower);
    case Action => ActionKeywords(lower);
    case Comedy => ComedyKeywords(lower);
    case Drama => DramaKeywords(lower);
    case Horror => HorrorKeywords(lower);
    case SciFi => SciFiKeywords(lower);
  }

  /**
   * Feeding a variant's own `getGenre()` tag back to the factory rebuilds the
   * same variant, the base movie's "General" included.
   */
  lemma {:induction false} ClassifyGenreTag(g: Genre)
    ensures Classify(GenreTag(g)) == g
  {
    LowerTagIsLower(g);
    TagKeywords(Lower(GenreTag(g)), g);
  }

  /** An OMDb genre list such as "Action Thriller" makes an action movie. */
  lemma ClassifyActionThriller()
    ensures GenreTag(Classify("Action Thriller")) == "ACTION"
  {
    var lower := Lower("Action Thriller");
    IncludesPrefix(lower, "action");
  }

  /**
   * `MovieFactory.createMovie(movieData)`: a new, unrated, review-less movie
   * of the classified variant carrying the record's fields, added at `now`.
   */
  method CreateMovie(data: MovieData, now: nat) returns (m: Movie)
    ensures fresh(m) && m.Valid()
    ensures m.genre == Classify(data.Genre)
    ensures m.title == data.Title && m.year == data.Year && m.director == data.Director
    ensures m.plot == data.Plot && m.poster == data.Poster && m.imdbRating == data.imdbRating
    ensures m.runtime == data.Runtime && m.actors == data.Actors && m.imdbID == data.imdbID
    ensures m.dateAdded == now && m.userRating == 0 && m.reviews == []
    ensures m.extra == InitialExtra(m.genre)
  {
    var genre := Classify(data.Genre);
    m := new Movie(data.Title, data.Year, data.Director, data.Plot, data.Poster,
                   data.imdbRating, data.Runtime, data.Actors, data.imdbID, genre, now);
  }
}
