/**
 * `MovieComparison.get_similarities` (enhanced_features.py): what two movies have in
 * common — the genre names both carry — and how far apart their ratings and release
 * years are.
 */
module MovieComparison {
  import opened Wrappers
  import opened PyText
  import opened Movies

  /**
   * The `similarities` dictionary. `shared_genres` is built as a Python set and handed
   * back as a list in the set's own order, so it is modelled as the set.
   */
  datatype Similarities = Similarities(
    sharedGenres: set<string>,
    sharedCast: seq<string>,
    ratingDifference: real,
    yearDifference: int)

  /** `movie.get('genres', [])` */
  function GenresOf(m: Movie): seq<Genre> {
    m.genres.GetOr([])
  }

  /** Some genre entry of the movie has this name. */
  predicate HasGenre(m: Movie, name: string) {
    exists k :: 0 <= k < |GenresOf(m)| && GenresOf(m)[k].name == name
  }

  /** The set of the movie's genre names. */
  function GenreNames(m: Movie): (names: set<string>)
    ensures forall g :: g in names <==> HasGenre(m, g)
  {
    set k | 0 <= k < |GenresOf(m)| :: GenresOf(m)[k].name
  }

  function Abs(x: real): (r: real)
    ensures r >= 0.0
    ensures r == x || r == -x
  {
    if x < 0.0 then -x else x
  }

  /** `movie.get('release_date', '')[:4]` */
  function YearOf(m: Movie): (y: string)
    ensures |y| <= 4
  {
    Prefix(m.releaseDate.GetOr(""), 4)
  }

  /**
   * `year_difference`: the distance between the two years when both are non-empty and
   * `int()` accepts both; 0 otherwise (the `ValueError` is swallowed).
   */
  function YearDifference(m1: Movie, m2: Movie): (d: int)
    ensures d >= 0
    ensures YearOf(m1) != "" && YearOf(m2) != "" && ParseInt(YearOf(m1)).Some? && ParseInt(YearOf(m2)).Some? ==>
              d == ParseInt(YearOf(m1)).value - ParseInt(YearOf(m2)).value
              || d == ParseInt(YearOf(m2)).value - ParseInt(YearOf(m1)).value
    ensures ParseInt(YearOf(m1)).None? || ParseInt(YearOf(m2)).None? ==> d == 0
  {
    var y1, y2 := YearOf(m1), YearOf(m2);
    if y1 != "" && y2 != "" then
      var a, b := ParseInt(y1), ParseInt(y2);
      if a.Some? && b.Some? then (if a.value < b.value then b.value - a.value else a.value - b.value)
      else 0
    else 0
  }

  /**
   * What `get_similarities(movie1, movie2)` returns: the genre names both movies carry,
   * an empty `shared_cast`, the distance between the ratings (a missing one counting as
   * 0) and the year distance.
   */
  function SimilaritiesOf(m1: Movie, m2: Movie): (s: Similarities)
    ensures forall g :: g in s.sharedGenres <==> HasGenre(m1, g) && HasGenre(m2, g)
    ensures s.sharedCast == []
    ensures s.ratingDifference >= 0.0
    ensures s.ratingDifference == m1.voteAverage.GetOr(0.0) - m2.voteAverage.GetOr(0.0)
            || s.ratingDifference == m2.voteAverage.GetOr(0.0) - m1.voteAverage.GetOr(0.0)
    ensures s.yearDifference == YearDifference(m1, m2)
  {
    Similarities(GenreNames(m1) * GenreNames(m2), [],
                 Abs(m1.voteAverage.GetOr(0.0) - m2.voteAverage.GetOr(0.0)), YearDifference(m1, m2))
  }

  /** The comparison does not depend on which movie comes first. */
  lemma SimilaritiesSymmetric(m1: Movie, m2: Movie)
    ensures SimilaritiesOf(m1, m2) == SimilaritiesOf(m2, m1)
  {
    assert GenreNames(m1) * GenreNames(m2) == GenreNames(m2) * GenreNames(m1);
  }

  /** A movie compared with itself shares all its genres and differs by nothing. */
  lemma SimilaritiesReflexive(m: Movie)
    ensures SimilaritiesOf(m, m).sharedGenres == GenreNames(m)
    ensures SimilaritiesOf(m, m).ratingDifference == 0.0
    ensures SimilaritiesOf(m, m).yearDifference == 0
  {
  }

  /** `get_similarities(movie1, movie2)` */
  method GetSimilarities(movie1: Movie, movie2: Movie) returns (similarities: Similarities)
    ensures similarities == SimilaritiesOf(movie1, movie2)
  {
    // Compare genres
    var genres1: set<string> := {};
    var genres2: set<string> := {};
    var list1, list2 := GenresOf(movie1), GenresOf(movie2);
    for i := 0 to |list1|
      invariant forall g :: g in genres1 <==> exists k :: 0 <= k < i && list1[k].name == g
    {
      genres1 := genres1 + {list1[i].name};
    }
    for i := 0 to |list2|
      invariant forall g :: g in genres2 <==> exists k :: 0 <= k < i && list2[k].name == g
    {
      genres2 := genres2 + {list2[i].name};
    }
    assert genres1 == GenreNames(movie1);
    assert genres2 == GenreNames(movie2);
    var sharedGenres := genres1 * genres2;
    // Compare ratings
    var ratingDifference := Abs(movie1.voteAverage.GetOr(0.0) - movie2.voteAverage.GetOr(0.0));
    // Compare years
    var yearDifference := 0;
    var year1, year2 := YearOf(movie1), YearOf(movie2);
    if year1 != "" && year2 != "" {
      var a, b := ParseInt(year1), ParseInt(year2);
      if a.Some? && b.Some? {
        yearDifference := if a.value < b.value then b.value - a.value else a.value - b.value;
      }
    }
    similarities := Similarities(sharedGenres, [], ratingDifference, yearDifference);
  }

  /** A single genre entry gives a one-name set. */
  lemma OneGenre(m: Movie, g: Genre)
    requires m.genres == Some([g])
    ensures GenreNames(m) == {g.name}
  {
    assert GenresOf(m)[0] == g;
    assert HasGenre(m, g.name);
  }

  lemma YearOfDate(m: Movie, date: string)
    requires m.releaseDate == Some(date) && |date| >= 4
    requires forall i :: 0 <= i < 4 ==> IsDigit(date[i])
    ensures ParseInt(YearOf(m)) == Some(1000 * (date[0] as int - '0' as int) + 100 * (date[1] as int - '0' as int)
                                        + 10 * (date[2] as int - '0' as int) + (date[3] as int - '0' as int))
  {
    ParseFourDigits(YearOf(m));
  }

  /**
   * The two movies of test_functionality.py, both of genre Action, released 2020 and 2021
   * and rated 7.5 and 8.0: they share "Action", a year apart and half a point apart.
   */
  lemma ComparisonExample(a: Movie, b: Movie)
    requires a.releaseDate == Some("2020-01-01") && a.voteAverage == Some(7.5) && a.genres == Some([Genre(28, "Action")])
    requires b.releaseDate == Some("2021-06-15") && b.voteAverage == Some(8.0) && b.genres == Some([Genre(28, "Action")])
    ensures SimilaritiesOf(a, b).sharedGenres == {"Action"}
    ensures SimilaritiesOf(a, b).ratingDifference == 0.5
    ensures SimilaritiesOf(a, b).yearDifference == 1
  {
    OneGenre(a, Genre(28, "Action"));
    OneGenre(b, Genre(28, "Action"));
    YearOfDate(a, "2020-01-01");
    YearOfDate(b, "2021-06-15");
  }
}
