/**
 * `MovieFilters` (movie_filters.py): each `filter_by_*` walks the list once and keeps
 * an order-preserving sub-list; `apply_filters` chains them in a fixed order.
 * Optional bounds follow Python truthiness: a bound of `None`, `0` or `0.0` is ignored.
 */
module MovieFilters {
  import opened Wrappers
  import opened PyText
  import opened PySeq
  import opened Movies

  // ---------------------------------------------------------------- what each filter keeps

  /**
   * The year `filter_by_year` reads: the part of a non-empty release date before
   * its first '-', as `int()` parses it; `None` where the code skips the movie.
   */
  function ReleaseYear(m: Movie): Option<int>
  {
    var date := m.releaseDate.GetOr("");
    if date == "" then None else ParseInt(BeforeFirst(date, '-'))
  }

  /** The genre list `filter_by_genres` inspects: `genres` if non-empty, else `genre_ids`. */
  datatype GenreView = Dicts(entries: seq<Genre>) | Ids(ids: seq<int>)

  function MovieGenres(m: Movie): GenreView
  {
    if SeqTruthy(m.genres) then Dicts(m.genres.value) else Ids(m.genreIds.GetOr([]))
  }

  predicate IsEmptyView(v: GenreView) {
    match v
    case Dicts(gs) => gs == []
    case Ids(ids) => ids == []
  }

  function GenreIdsOf(v: GenreView): seq<int>
  {
    match v
    case Dicts(gs) => seq(|gs|, i requires 0 <= i < |gs| => gs[i].id)
    case Ids(ids) => ids
  }

  function LowerGenreNames(gs: seq<Genre>): seq<string>
  {
    seq(|gs|, i requires 0 <= i < |gs| => Lower(gs[i].name))
  }

  function LowerAll(names: seq<string>): seq<string>
  {
    seq(|names|, i requires 0 <= i < |names| => Lower(names[i]))
  }

  /** `filter_by_genres` with `genre_ids` given raises `IndexError` at `movie_genres[0]` on this movie. */
  predicate GenreIndexError(genreIds: Option<seq<int>>, m: Movie) {
    SeqTruthy(genreIds) && IsEmptyView(MovieGenres(m))
  }

  /** Some movie of the list makes `filter_by_genres` raise. */
  predicate AnyGenreIndexError(genreIds: Option<seq<int>>, movies: seq<Movie>) {
    movies != [] &&
    (AnyGenreIndexError(genreIds, movies[..|movies| - 1]) || GenreIndexError(genreIds, movies[|movies| - 1]))
  }

  lemma {:induction false} AnyGenreIndexErrorSpec(genreIds: Option<seq<int>>, movies: seq<Movie>)
    ensures AnyGenreIndexError(genreIds, movies) <==> exists i :: 0 <= i < |movies| && GenreIndexError(genreIds, movies[i])
  {
    if movies != [] {
      var init := movies[..|movies| - 1];
      AnyGenreIndexErrorSpec(genreIds, init);
      if exists i :: 0 <= i < |movies| && GenreIndexError(genreIds, movies[i]) {
        var i :| 0 <= i < |movies| && GenreIndexError(genreIds, movies[i]);
        if i < |init| {
          assert init[i] == movies[i];
        }
      }
      if AnyGenreIndexError(genreIds, init) {
        var i :| 0 <= i < |init| && GenreIndexError(genreIds, init[i]);
        assert movies[i] == init[i];
      }
    }
  }

  // Each filter's test on one movie. `Select` takes it as a value, built by the `...Test` functions.

  predicate KeepsYear(minYear: Option<int>, maxYear: Option<int>, m: Movie) {
    var y := ReleaseYear(m);
    y.Some? && !(IntTruthy(minYear) && y.value < minYear.value) && !(IntTruthy(maxYear) && y.value > maxYear.value)
  }

  predicate KeepsRating(minRating: Option<real>, maxRating: Option<real>, m: Movie) {
    var r := m.voteAverage.GetOr(0.0);
    !(RealTruthy(minRating) && r < minRating.value) && !(RealTruthy(maxRating) && r > maxRating.value)
  }

  predicate KeepsVotes(minVotes: Option<int>, m: Movie) {
    !(IntTruthy(minVotes) && m.voteCount.GetOr(0) < minVotes.value)
  }

  /** A movie without runtime (absent or 0) is always dropped. */
  predicate KeepsRuntime(minRuntime: Option<int>, maxRuntime: Option<int>, m: Movie) {
    var t := m.runtime.GetOr(0);
    t != 0 && !(IntTruthy(minRuntime) && t < minRuntime.value) && !(IntTruthy(maxRuntime) && t > maxRuntime.value)
  }

  predicate KeepsLanguage(languages: seq<string>, m: Movie) {
    m.originalLanguage.GetOr("") in languages
  }

  /** Ids match against dict or bare-id genres; names match (case-insensitively) only dict genres. */
  predicate KeepsGenres(genreIds: Option<seq<int>>, genreNames: Option<seq<string>>, m: Movie) {
    var v := MovieGenres(m);
    (SeqTruthy(genreIds) && !IsEmptyView(v) && exists gid <- genreIds.value :: gid in GenreIdsOf(v))
    || (SeqTruthy(genreNames) && !IsEmptyView(v) && v.Dicts?
        && exists name <- genreNames.value :: Lower(name) in LowerGenreNames(v.entries))
  }

  /** `credits`, when present, decides alone; the flat `cast` list is consulted only without it. */
  predicate KeepsCast(actorNames: seq<string>, m: Movie) {
    var wanted := LowerAll(actorNames);
    if m.credits.Some? then exists a <- m.credits.value.cast :: Lower(a) in wanted
    else SeqTruthy(m.cast) && exists a <- m.cast.value :: Lower(a) in wanted
  }

  /** `credits`, when present, decides alone; the flat `director` field is consulted only without it. */
  predicate KeepsDirector(directorName: string, m: Movie) {
    var wanted := Lower(directorName);
    if m.credits.Some? then
      exists p <- m.credits.value.crew :: p.job == Some("Director") && Lower(p.name) == wanted
    else m.director.Some? && Lower(m.director.value) == wanted
  }

  predicate KeepsPopularity(minPopularity: real, m: Movie) {
    m.popularity.GetOr(0.0) >= minPopularity
  }

  function YearTest(minYear: Option<int>, maxYear: Option<int>): Movie -> bool { m => KeepsYear(minYear, maxYear, m) }
  function RatingTest(minRating: Option<real>, maxRating: Option<real>): Movie -> bool { m => KeepsRating(minRating, maxRating, m) }
  function VotesTest(minVotes: Option<int>): Movie -> bool { m => KeepsVotes(minVotes, m) }
  function RuntimeTest(minRuntime: Option<int>, maxRuntime: Option<int>): Movie -> bool { m => KeepsRuntime(minRuntime, maxRuntime, m) }
  function LanguageTest(languages: seq<string>): Movie -> bool { m => KeepsLanguage(languages, m) }
  function GenresTest(genreIds: Option<seq<int>>, genreNames: Option<seq<string>>): Movie -> bool { m => KeepsGenres(genreIds, genreNames, m) }
  function CastTest(actorNames: seq<string>): Movie -> bool { m => KeepsCast(actorNames, m) }
  function DirectorTest(directorName: string): Movie -> bool { m => KeepsDirector(directorName, m) }
  function PopularityTest(minPopularity: real): Movie -> bool { m => KeepsPopularity(minPopularity, m) }

  /** The movies `keep` accepts, in input order. */
  function Select(movies: seq<Movie>, keep: Movie -> bool): seq<Movie>
  {
    if movies == [] then []
    else
      var init := Select(movies[..|movies| - 1], keep);
      if keep(movies[|movies| - 1]) then init + [movies[|movies| - 1]] else init
  }

  /** A filter's result is an order-preserving sub-list holding exactly the movies it keeps. */
  lemma {:induction false} SelectSpec(movies: seq<Movie>, keep: Movie -> bool)
    ensures IsSubsequence(Select(movies, keep), movies)
    ensures forall m :: m in Select(movies, keep) <==> m in movies && keep(m)
    ensures |Select(movies, keep)| <= |movies|
  {
    if movies != [] {
      var init, last := movies[..|movies| - 1], movies[|movies| - 1];
      assert movies == init + [last];
      SelectSpec(init, keep);
      if keep(last) {
        assert IsSubsequence(Select(movies, keep), movies) by {
          assert (Select(init, keep) + [last])[..|Select(init, keep)|] == Select(init, keep);
        }
      } else {
        SubsequenceExtend(Select(init, keep), init, last);
      }
    }
  }

  /** A kept movie occurs in the result as often as in the input; any other movie not at all. */
  lemma {:induction false} SelectCounts(movies: seq<Movie>, keep: Movie -> bool, m: Movie)
    ensures multiset(Select(movies, keep))[m] == if keep(m) then multiset(movies)[m] else 0
  {
    if movies != [] {
      var init, last := movies[..|movies| - 1], movies[|movies| - 1];
      SelectCounts(init, keep, m);
      assert movies == init + [last];
      assert multiset(movies) == multiset(init) + multiset{last};
    }
  }

  /** A test every movie passes selects the whole list. */
  lemma {:induction false} SelectAll(movies: seq<Movie>, keep: Movie -> bool)
    requires forall m :: m in movies ==> keep(m)
    ensures Select(movies, keep) == movies
  {
    if movies != [] {
      SelectAll(movies[..|movies| - 1], keep);
    }
  }

  // ---------------------------------------------------------------- the filters

  method FilterByYear(movies: seq<Movie>, minYear: Option<int>, maxYear: Option<int>) returns (filtered: seq<Movie>)
    ensures filtered == Select(movies, YearTest(minYear, maxYear))
  {
    filtered := [];
    for i := 0 to |movies|
      invariant filtered == Select(movies[..i], YearTest(minYear, maxYear))
    {
      assert movies[..i + 1][..i] == movies[..i];
      var movie := movies[i];
      var releaseDate := movie.releaseDate.GetOr("");
      if releaseDate != "" {
        var year := ParseInt(BeforeFirst(releaseDate, '-'));
        if year.None? {
          continue;
        }
        if IntTruthy(minYear) && year.value < minYear.value {
          continue;
        }
        if IntTruthy(maxYear) && year.value > maxYear.value {
          continue;
        }
        filtered := filtered + [movie];
      }
    }
    assert movies[..|movies|] == movies;
  }

  method FilterByDecade(movies: seq<Movie>, decade: int) returns (filtered: seq<Movie>)
    ensures filtered == Select(movies, YearTest(Some(decade), Some(decade + 9)))
  {
    filtered := FilterByYear(movies, Some(decade), Some(decade + 9));
  }

  method FilterByRating(movies: seq<Movie>, minRating: Option<real>, maxRating: Option<real>) returns (filtered: seq<Movie>)
    ensures filtered == Select(movies, RatingTest(minRating, maxRating))
  {
    filtered := [];
    for i := 0 to |movies|
      invariant filtered == Select(movies[..i], RatingTest(minRating, maxRating))
    {
      assert movies[..i + 1][..i] == movies[..i];
      var movie := movies[i];
      var rating := movie.voteAverage.GetOr(0.0);
      if RealTruthy(minRating) && rating < minRating.value {
        continue;
      }
      if RealTruthy(maxRating) && rating > maxRating.value {
        continue;
      }
      filtered := filtered + [movie];
    }
    assert movies[..|movies|] == movies;
  }

  method FilterByVoteCount(movies: seq<Movie>, minVotes: Option<int>) returns (filtered: seq<Movie>)
    ensures filtered == Select(movies, VotesTest(minVotes))
  {
    filtered := [];
    for i := 0 to |movies|
      invariant filtered == Select(movies[..i], VotesTest(minVotes))
    {
      assert movies[..i + 1][..i] == movies[..i];
      var movie := movies[i];
      var votes := movie.voteCount.GetOr(0);
      if IntTruthy(minVotes) && votes < minVotes.value {
        continue;
      }
      filtered := filtered + [movie];
    }
    assert movies[..|movies|] == movies;
  }

  method FilterByRuntime(movies: seq<Movie>, minRuntime: Option<int>, maxRuntime: Option<int>) returns (filtered: seq<Movie>)
    ensures filtered == Select(movies, RuntimeTest(minRuntime, maxRuntime))
  {
    filtered := [];
    for i := 0 to |movies|
      invariant filtered == Select(movies[..i], RuntimeTest(minRuntime, maxRuntime))
    {
      assert movies[..i + 1][..i] == movies[..i];
      var movie := movies[i];
      var runtime := movie.runtime.GetOr(0);
      if runtime == 0 {
        continue;
      }
      if IntTruthy(minRuntime) && runtime < minRuntime.value {
        continue;
      }
      if IntTruthy(maxRuntime) && runtime > maxRuntime.value {
        continue;
      }
      filtered := filtered + [movie];
    }
    assert movies[..|movies|] == movies;
  }

  /** What `filter_by_language` returns: its input itself when `languages` is falsy. */
  function LanguageResult(movies: seq<Movie>, languages: Option<seq<string>>): seq<Movie>
  {
    if !SeqTruthy(languages) then movies else Select(movies, LanguageTest(languages.value))
  }

  method FilterByLanguage(movies: seq<Movie>, languages: Option<seq<string>>) returns (filtered: seq<Movie>)
    ensures filtered == LanguageResult(movies, languages)
    ensures !SeqTruthy(languages) ==> filtered == movies
  {
    if !SeqTruthy(languages) {
      return movies;
    }
    filtered := [];
    for i := 0 to |movies|
      invariant filtered == Select(movies[..i], LanguageTest(languages.value))
    {
      assert movies[..i + 1][..i] == movies[..i];
      var movie := movies[i];
      var lang := movie.originalLanguage.GetOr("");
      if lang in languages.value {
        filtered := filtered + [movie];
      }
    }
    assert movies[..|movies|] == movies;
  }

  /**
   * What `filter_by_genres` returns: its input when both criteria are falsy; `None`
   * (the `IndexError`) when ids are given and some movie's genre list is empty.
   */
  function GenresResult(movies: seq<Movie>, genreIds: Option<seq<int>>, genreNames: Option<seq<string>>): Option<seq<Movie>>
  {
    if !SeqTruthy(genreIds) && !SeqTruthy(genreNames) then Some(movies)
    else if AnyGenreIndexError(genreIds, movies) then None
    else Some(Select(movies, GenresTest(genreIds, genreNames)))
  }

  method FilterByGenres(movies: seq<Movie>, genreIds: Option<seq<int>>, genreNames: Option<seq<string>>)
    returns (result: Option<seq<Movie>>)
    ensures result == GenresResult(movies, genreIds, genreNames)
    ensures !SeqTruthy(genreIds) && !SeqTruthy(genreNames) ==> result == Some(movies)
  {
    if !SeqTruthy(genreIds) && !SeqTruthy(genreNames) {
      return Some(movies);
    }
    var filtered := [];
    for i := 0 to |movies|
      invariant filtered == Select(movies[..i], GenresTest(genreIds, genreNames))
      invariant !AnyGenreIndexError(genreIds, movies[..i])
    {
      assert movies[..i + 1][..i] == movies[..i];
      assert movies[..i + 1] == movies[..i] + [movies[i]];
      var movie := movies[i];
      var movieGenres := if SeqTruthy(movie.genres) then Dicts(movie.genres.value) else Ids(movie.genreIds.GetOr([]));
      if SeqTruthy(genreIds) {
        if IsEmptyView(movieGenres) {
          AnyGenreIndexErrorSpec(genreIds, movies);
          return None;
        }
        var movieGenreIds := GenreIdsOf(movieGenres);
        if exists gid <- genreIds.value :: gid in movieGenreIds {
          filtered := filtered + [movie];
          continue;
        }
      }
      if SeqTruthy(genreNames) {
        if !IsEmptyView(movieGenres) && movieGenres.Dicts? {
          var movieGenreNames := LowerGenreNames(movieGenres.entries);
          if exists name <- genreNames.value :: Lower(name) in movieGenreNames {
            filtered := filtered + [movie];
          }
        }
      }
    }
    assert movies[..|movies|] == movies;
    return Some(filtered);
  }

  /** What `filter_by_cast` returns: its input itself when `actor_names` is falsy. */
  function CastResult(movies: seq<Movie>, actorNames: Option<seq<string>>): seq<Movie>
  {
    if !SeqTruthy(actorNames) then movies else Select(movies, CastTest(actorNames.value))
  }

  /** The inner `for actor in cast: ... break` of `filter_by_cast`: does any name match? */
  method AnyNameIn(cast: seq<string>, wanted: seq<string>) returns (found: bool)
    ensures found <==> exists a <- cast :: Lower(a) in wanted
  {
    found := false;
    var j := 0;
    while j < |cast|
      invariant 0 <= j <= |cast|
      invariant forall k :: 0 <= k < j ==> Lower(cast[k]) !in wanted
    {
      if Lower(cast[j]) in wanted {
        found := true;
        break;
      }
      j := j + 1;
    }
  }

  method FilterByCast(movies: seq<Movie>, actorNames: Option<seq<string>>) returns (filtered: seq<Movie>)
    ensures filtered == CastResult(movies, actorNames)
    ensures !SeqTruthy(actorNames) ==> filtered == movies
  {
    if !SeqTruthy(actorNames) {
      return movies;
    }
    filtered := [];
    var actorNamesLower := LowerAll(actorNames.value);
    for i := 0 to |movies|
      invariant filtered == Select(movies[..i], CastTest(actorNames.value))
    {
      assert movies[..i + 1][..i] == movies[..i];
      var movie := movies[i];
      if movie.credits.Some? {
        var found := AnyNameIn(movie.credits.value.cast, actorNamesLower);
        if found {
          filtered := filtered + [movie];
        }
      } else if SeqTruthy(movie.cast) {
        var found := AnyNameIn(movie.cast.value, actorNamesLower);
        if found {
          filtered := filtered + [movie];
        }
      }
    }
    assert movies[..|movies|] == movies;
  }

  /** What `filter_by_director` returns: its input itself when `director_name` is falsy. */
  function DirectorResult(movies: seq<Movie>, directorName: Option<string>): seq<Movie>
  {
    if !SeqTruthy(directorName) then movies else Select(movies, DirectorTest(directorName.value))
  }

  /** The inner `for person in crew: ... break` of `filter_by_director`. */
  method AnyDirectorNamed(crew: seq<CrewMember>, wanted: string) returns (found: bool)
    ensures found <==> exists p <- crew :: p.job == Some("Director") && Lower(p.name) == wanted
  {
    found := false;
    var j := 0;
    while j < |crew|
      invariant 0 <= j <= |crew|
      invariant forall k :: 0 <= k < j ==> !(crew[k].job == Some("Director") && Lower(crew[k].name) == wanted)
    {
      if crew[j].job == Some("Director") && Lower(crew[j].name) == wanted {
        found := true;
        break;
      }
      j := j + 1;
    }
  }

  method FilterByDirector(movies: seq<Movie>, directorName: Option<string>) returns (filtered: seq<Movie>)
    ensures filtered == DirectorResult(movies, directorName)
    ensures !SeqTruthy(directorName) ==> filtered == movies
  {
    if !SeqTruthy(directorName) {
      return movies;
    }
    filtered := [];
    var directorNameLower := Lower(directorName.value);
    for i := 0 to |movies|
      invariant filtered == Select(movies[..i], DirectorTest(directorName.value))
    {
      assert movies[..i + 1][..i] == movies[..i];
      var movie := movies[i];
      if movie.credits.Some? {
        var found := AnyDirectorNamed(movie.credits.value.crew, directorNameLower);
        if found {
          filtered := filtered + [movie];
        }
      } else if movie.director.Some? {
        if Lower(movie.director.value) == directorNameLower {
          filtered := filtered + [movie];
        }
      }
    }
    assert movies[..|movies|] == movies;
  }

  /** What `filter_by_popularity` returns: its input itself when `min_popularity` is falsy. */
  function PopularityResult(movies: seq<Movie>, minPopularity: Option<real>): seq<Movie>
  {
    if !RealTruthy(minPopularity) then movies else Select(movies, PopularityTest(minPopularity.value))
  }

  method FilterByPopularity(movies: seq<Movie>, minPopularity: Option<real>) returns (filtered: seq<Movie>)
    ensures filtered == PopularityResult(movies, minPopularity)
    ensures !RealTruthy(minPopularity) ==> filtered == movies
  {
    if !RealTruthy(minPopularity) {
      return movies;
    }
    filtered := [];
    for i := 0 to |movies|
      invariant filtered == Select(movies[..i], PopularityTest(minPopularity.value))
    {
      assert movies[..i + 1][..i] == movies[..i];
      var movie := movies[i];
      var popularity := movie.popularity.GetOr(0.0);
      if popularity >= minPopularity.value {
        filtered := filtered + [movie];
      }
    }
    assert movies[..|movies|] == movies;
  }

  // ---------------------------------------------------------------- apply_filters

  /** One key of the `filters` dict: absent, or present with a value that may be `None`. */
  datatype Key<T> = Absent | Given(value: Option<T>) {
    /** `filters.get(key)` */
    function Get(): Option<T> { if Given? then value else None }
  }

  /** The keys `apply_filters` recognises; any other key of the dict is ignored. */
  datatype FilterSet = FilterSet(
    minYear: Key<int>, maxYear: Key<int>, decade: Key<int>,
    minRating: Key<real>, maxRating: Key<real>, minVotes: Key<int>,
    minRuntime: Key<int>, maxRuntime: Key<int>, languages: Key<seq<string>>,
    genreIds: Key<seq<int>>, genreNames: Key<seq<string>>,
    actors: Key<seq<string>>, director: Key<string>, minPopularity: Key<real>)

  const NoFilters := FilterSet(Absent, Absent, Absent, Absent, Absent, Absent, Absent,
                               Absent, Absent, Absent, Absent, Absent, Absent, Absent)

  /** One call `apply_filters` makes, with the arguments it passes. */
  datatype Step =
    | ByYear(minYear: Option<int>, maxYear: Option<int>)
    | ByDecade(decade: Option<int>)
    | ByRating(minRating: Option<real>, maxRating: Option<real>)
    | ByVotes(minVotes: Option<int>)
    | ByRuntime(minRuntime: Option<int>, maxRuntime: Option<int>)
    | ByLanguage(languages: Option<seq<string>>)
    | ByGenres(genreIds: Option<seq<int>>, genreNames: Option<seq<string>>)
    | ByCast(actorNames: Option<seq<string>>)
    | ByDirector(directorName: Option<string>)
    | ByPopularity(minPopularity: Option<real>)

  function When(b: bool, s: Step): seq<Step> { if b then [s] else [] }

  /**
   * The calls `apply_filters` makes for `f`, in the order it makes them, grouped as the
   * source's comments group them.
   */
  function Steps(f: FilterSet): seq<Step>
  {
    TemporalSteps(f) + QualitySteps(f) + ContentSteps(f) + GenreSteps(f) + PersonnelSteps(f)
    + PopularitySteps(f)
  }

  function TemporalSteps(f: FilterSet): seq<Step>
  {
    When(f.minYear.Given? || f.maxYear.Given?, ByYear(f.minYear.Get(), f.maxYear.Get()))
    + When(f.decade.Given?, ByDecade(f.decade.Get()))
  }

  function QualitySteps(f: FilterSet): seq<Step>
  {
    When(f.minRating.Given? || f.maxRating.Given?, ByRating(f.minRating.Get(), f.maxRating.Get()))
    + When(f.minVotes.Given?, ByVotes(f.minVotes.Get()))
  }

  function ContentSteps(f: FilterSet): seq<Step>
  {
    When(f.minRuntime.Given? || f.maxRuntime.Given?, ByRuntime(f.minRuntime.Get(), f.maxRuntime.Get()))
    + When(f.languages.Given?, ByLanguage(f.languages.Get()))
  }

  function GenreSteps(f: FilterSet): seq<Step>
  {
    When(f.genreIds.Given? || f.genreNames.Given?, ByGenres(f.genreIds.Get(), f.genreNames.Get()))
  }

  function PersonnelSteps(f: FilterSet): seq<Step>
  {
    When(f.actors.Given?, ByCast(f.actors.Get()))
    + When(f.director.Given?, ByDirector(f.director.Get()))
  }

  function PopularitySteps(f: FilterSet): seq<Step>
  {
    When(f.minPopularity.Given?, ByPopularity(f.minPopularity.Get()))
  }

  /** The call returns its input without looking at it (its criterion is falsy). */
  predicate IsNoOp(step: Step) {
    match step
    case ByLanguage(langs) => !SeqTruthy(langs)
    case ByGenres(ids, names) => !SeqTruthy(ids) && !SeqTruthy(names)
    case ByCast(names) => !SeqTruthy(names)
    case ByDirector(name) => !SeqTruthy(name)
    case ByPopularity(lo) => !RealTruthy(lo)
    case _ => false
  }

  /** The call raises: `decade + 9` on a `None` decade, or the `IndexError` of `filter_by_genres`. */
  predicate Raises(movies: seq<Movie>, step: Step) {
    match step
    case ByDecade(d) => d.None?
    case ByGenres(ids, _) => AnyGenreIndexError(ids, movies)
    case _ => false
  }

  /** The test a call applies to each movie (when it is neither a no-op nor raises). */
  function StepTest(step: Step): Movie -> bool
  {
    match step
    case ByYear(lo, hi) => YearTest(lo, hi)
    case ByDecade(d) => YearTest(d, if d.Some? then Some(d.value + 9) else None)
    case ByRating(lo, hi) => RatingTest(lo, hi)
    case ByVotes(lo) => VotesTest(lo)
    case ByRuntime(lo, hi) => RuntimeTest(lo, hi)
    case ByLanguage(langs) => LanguageTest(langs.GetOr([]))
    case ByGenres(ids, names) => GenresTest(ids, names)
    case ByCast(names) => CastTest(names.GetOr([]))
    case ByDirector(name) => DirectorTest(name.GetOr(""))
    case ByPopularity(lo) => PopularityTest(lo.GetOr(0.0))
  }

  /** The list one call returns; `None` where it raises. */
  function StepResult(movies: seq<Movie>, step: Step): Option<seq<Movie>>
  {
    if IsNoOp(step) then Some(movies)
    else if Raises(movies, step) then None
    else Some(Select(movies, StepTest(step)))
  }

  /** The calls of `steps` chained, each on the previous one's result; a raise ends the chain. */
  function Pipeline(movies: seq<Movie>, steps: seq<Step>): Option<seq<Movie>>
  {
    if steps == [] then Some(movies)
    else
      match Pipeline(movies, steps[..|steps| - 1])
      case None => None
      case Some(r) => StepResult(r, steps[|steps| - 1])
  }

  /** An `if` of `apply_filters` with condition `b` and call `s`, applied to `x`. */
  lemma Ran(x: seq<Movie>, b: bool, s: Step)
    ensures Pipeline(x, When(b, s)) == if b then StepResult(x, s) else Some(x)
  {
    if b {
      assert [s][..0] == [];
    }
  }

  /** Applying `a + b` is applying `a`, then `b` on its result. */
  lemma {:induction false} PipelineAppend(movies: seq<Movie>, a: seq<Step>, b: seq<Step>)
    ensures Pipeline(movies, a + b) ==
      match Pipeline(movies, a)
      case None => None
      case Some(x) => Pipeline(x, b)
  {
    if b == [] {
      assert a + b == a;
    } else {
      var b' := b[..|b| - 1];
      assert (a + b)[..|a + b| - 1] == a + b';
      PipelineAppend(movies, a, b');
    }
  }

  lemma Then(x0: seq<Movie>, a: seq<Step>, b: seq<Step>, x1: seq<Movie>, x2: Option<seq<Movie>>)
    requires Pipeline(x0, a) == Some(x1) && Pipeline(x1, b) == x2
    ensures Pipeline(x0, a + b) == x2
  {
    PipelineAppend(x0, a, b);
  }

  /** Once a call has raised, the calls after it change nothing. */
  lemma PipelineStaysFailed(movies: seq<Movie>, steps: seq<Step>, more: seq<Step>)
    requires Pipeline(movies, steps) == None
    ensures Pipeline(movies, steps + more) == None
  {
    PipelineAppend(movies, steps, more);
  }

  /** The temporal filters of `apply_filters`: year range, then decade. */
  method TemporalFilters(movies: seq<Movie>, f: FilterSet) returns (result: Option<seq<Movie>>)
    ensures result == Pipeline(movies, TemporalSteps(f))
  {
    var filteredMovies := movies;
    if f.minYear.Given? || f.maxYear.Given? {
      filteredMovies := FilterByYear(filteredMovies, f.minYear.Get(), f.maxYear.Get());
    }
    Ran(movies, f.minYear.Given? || f.maxYear.Given?, ByYear(f.minYear.Get(), f.maxYear.Get()));
    ghost var x1 := filteredMovies;
    if f.decade.Given? {
      if f.decade.value.None? {
        // `None + 9` raises
        Ran(x1, f.decade.Given?, ByDecade(f.decade.Get()));
        Then(movies, When(f.minYear.Given? || f.maxYear.Given?, ByYear(f.minYear.Get(), f.maxYear.Get())), When(f.decade.Given?, ByDecade(f.decade.Get())), x1, None);
        return None;
      }
      filteredMovies := FilterByDecade(filteredMovies, f.decade.value.value);
    }
    Ran(x1, f.decade.Given?, ByDecade(f.decade.Get()));
    Then(movies, When(f.minYear.Given? || f.maxYear.Given?, ByYear(f.minYear.Get(), f.maxYear.Get())), When(f.decade.Given?, ByDecade(f.decade.Get())), x1, Some(filteredMovies));
    return Some(filteredMovies);
  }

  /** The quality filters of `apply_filters`: rating range, then vote count. */
  method QualityFilters(movies: seq<Movie>, f: FilterSet) returns (filteredMovies: seq<Movie>)
    ensures Pipeline(movies, QualitySteps(f)) == Some(filteredMovies)
  {
    filteredMovies := movies;
    if f.minRating.Given? || f.maxRating.Given? {
      filteredMovies := FilterByRating(filteredMovies, f.minRating.Get(), f.maxRating.Get());
    }
    Ran(movies, f.minRating.Given? || f.maxRating.Given?, ByRating(f.minRating.Get(), f.maxRating.Get()));
    ghost var x1 := filteredMovies;
    if f.minVotes.Given? {
      filteredMovies := FilterByVoteCount(filteredMovies, f.minVotes.value);
    }
    Ran(x1, f.minVotes.Given?, ByVotes(f.minVotes.Get()));
    Then(movies, When(f.minRating.Given? || f.maxRating.Given?, ByRating(f.minRating.Get(), f.maxRating.Get())), When(f.minVotes.Given?, ByVotes(f.minVotes.Get())), x1, Some(filteredMovies));
  }

  /** The content filters of `apply_filters`: runtime range, then languages. */
  method ContentFilters(movies: seq<Movie>, f: FilterSet) returns (filteredMovies: seq<Movie>)
    ensures Pipeline(movies, ContentSteps(f)) == Some(filteredMovies)
  {
    filteredMovies := movies;
    if f.minRuntime.Given? || f.maxRuntime.Given? {
      filteredMovies := FilterByRuntime(filteredMovies, f.minRuntime.Get(), f.maxRuntime.Get());
    }
    Ran(movies, f.minRuntime.Given? || f.maxRuntime.Given?, ByRuntime(f.minRuntime.Get(), f.maxRuntime.Get()));
    ghost var x1 := filteredMovies;
    if f.languages.Given? {
      filteredMovies := FilterByLanguage(filteredMovies, f.languages.value);
    }
    Ran(x1, f.languages.Given?, ByLanguage(f.languages.Get()));
    Then(movies, When(f.minRuntime.Given? || f.maxRuntime.Given?, ByRuntime(f.minRuntime.Get(), f.maxRuntime.Get())), When(f.languages.Given?, ByLanguage(f.languages.Get())), x1, Some(filteredMovies));
  }

  /** The genre filter of `apply_filters`. */
  method GenreFilter(movies: seq<Movie>, f: FilterSet) returns (result: Option<seq<Movie>>)
    ensures result == Pipeline(movies, GenreSteps(f))
  {
    var filteredMovies := movies;
    if f.genreIds.Given? || f.genreNames.Given? {
      var genres := FilterByGenres(filteredMovies, f.genreIds.Get(), f.genreNames.Get());
      if genres.None? {
        // `movie_genres[0]` raises
        Ran(movies, f.genreIds.Given? || f.genreNames.Given?, ByGenres(f.genreIds.Get(), f.genreNames.Get()));
        return None;
      }
      filteredMovies := genres.value;
    }
    Ran(movies, f.genreIds.Given? || f.genreNames.Given?, ByGenres(f.genreIds.Get(), f.genreNames.Get()));
    return Some(filteredMovies);
  }

  /** The personnel filters of `apply_filters`: cast, then director. */
  method PersonnelFilters(movies: seq<Movie>, f: FilterSet) returns (filteredMovies: seq<Movie>)
    ensures Pipeline(movies, PersonnelSteps(f)) == Some(filteredMovies)
  {
    filteredMovies := movies;
    if f.actors.Given? {
      filteredMovies := FilterByCast(filteredMovies, f.actors.value);
    }
    Ran(movies, f.actors.Given?, ByCast(f.actors.Get()));
    ghost var x1 := filteredMovies;
    if f.director.Given? {
      filteredMovies := FilterByDirector(filteredMovies, f.director.value);
    }
    Ran(x1, f.director.Given?, ByDirector(f.director.Get()));
    Then(movies, When(f.actors.Given?, ByCast(f.actors.Get())), When(f.director.Given?, ByDirector(f.director.Get())), x1, Some(filteredMovies));
  }

  /** The popularity filter of `apply_filters`. */
  method PopularityFilter(movies: seq<Movie>, f: FilterSet) returns (filteredMovies: seq<Movie>)
    ensures Pipeline(movies, PopularitySteps(f)) == Some(filteredMovies)
  {
    filteredMovies := movies;
    if f.minPopularity.Given? {
      filteredMovies := FilterByPopularity(filteredMovies, f.minPopularity.value);
    }
    Ran(movies, f.minPopularity.Given?, ByPopularity(f.minPopularity.Get()));
  }

  /** Six groups that each ran to completion chain to the last group's result. */
  lemma {:induction false} ChainOk(x0: seq<Movie>, t: seq<Step>, q: seq<Step>, c: seq<Step>,
                                   g: seq<Step>, p: seq<Step>, z: seq<Step>,
                                   x1: seq<Movie>, x2: seq<Movie>, x3: seq<Movie>,
                                   x4: seq<Movie>, x5: seq<Movie>, x6: seq<Movie>)
    requires Pipeline(x0, t) == Some(x1) && Pipeline(x1, q) == Some(x2) && Pipeline(x2, c) == Some(x3)
    requires Pipeline(x3, g) == Some(x4) && Pipeline(x4, p) == Some(x5) && Pipeline(x5, z) == Some(x6)
    ensures Pipeline(x0, t + q + c + g + p + z) == Some(x6)
  {
    Then(x0, t, q, x1, Some(x2));
    Then(x0, t + q, c, x2, Some(x3));
    Then(x0, t + q + c, g, x3, Some(x4));
    Then(x0, t + q + c + g, p, x4, Some(x5));
    Then(x0, t + q + c + g + p, z, x5, Some(x6));
  }

  /** A raise in the first of six groups ends the chain. */
  lemma {:induction false} ChainFailsFirst(x0: seq<Movie>, t: seq<Step>, q: seq<Step>, c: seq<Step>,
                                           g: seq<Step>, p: seq<Step>, z: seq<Step>)
    requires Pipeline(x0, t) == None
    ensures Pipeline(x0, t + q + c + g + p + z) == None
  {
    PipelineStaysFailed(x0, t, q);
    PipelineStaysFailed(x0, t + q, c);
    PipelineStaysFailed(x0, t + q + c, g);
    PipelineStaysFailed(x0, t + q + c + g, p);
    PipelineStaysFailed(x0, t + q + c + g + p, z);
  }

  /** A raise in the fourth of six groups ends the chain. */
  lemma {:induction false} ChainFailsFourth(x0: seq<Movie>, t: seq<Step>, q: seq<Step>, c: seq<Step>,
                                            g: seq<Step>, p: seq<Step>, z: seq<Step>,
                                            x1: seq<Movie>, x2: seq<Movie>, x3: seq<Movie>)
    requires Pipeline(x0, t) == Some(x1) && Pipeline(x1, q) == Some(x2) && Pipeline(x2, c) == Some(x3)
    requires Pipeline(x3, g) == None
    ensures Pipeline(x0, t + q + c + g + p + z) == None
  {
    Then(x0, t, q, x1, Some(x2));
    Then(x0, t + q, c, x2, Some(x3));
    Then(x0, t + q + c, g, x3, None);
    PipelineStaysFailed(x0, t + q + c + g, p);
    PipelineStaysFailed(x0, t + q + c + g + p, z);
  }

  /**
   * `apply_filters(movies, filters)`: every filter whose key is present, in a fixed order,
   * each on the previous one's result; `None` where a filter raises.
   */
  method ApplyFilters(movies: seq<Movie>, filters: FilterSet) returns (result: Option<seq<Movie>>)
    ensures result == Pipeline(movies, Steps(filters))
    ensures filters == NoFilters ==> result == Some(movies)
  {
    var f := filters;
    ghost var t, q, c, g, p, z :=
      TemporalSteps(f), QualitySteps(f), ContentSteps(f), GenreSteps(f), PersonnelSteps(f), PopularitySteps(f);
    // Temporal filters
    var temporal := TemporalFilters(movies, f);
    if temporal.None? {
      ChainFailsFirst(movies, t, q, c, g, p, z);
      return None;
    }
    var filteredMovies := temporal.value;
    ghost var x1 := filteredMovies;
    // Quality filters
    filteredMovies := QualityFilters(filteredMovies, f);
    ghost var x2 := filteredMovies;
    // Content specifications
    filteredMovies := ContentFilters(filteredMovies, f);
    ghost var x3 := filteredMovies;
    // Genre filters
    var genres := GenreFilter(filteredMovies, f);
    if genres.None? {
      ChainFailsFourth(movies, t, q, c, g, p, z, x1, x2, x3);
      return None;
    }
    filteredMovies := genres.value;
    ghost var x4 := filteredMovies;
    // Personnel filters
    filteredMovies := PersonnelFilters(filteredMovies, f);
    ghost var x5 := filteredMovies;
    // Popularity filter
    filteredMovies := PopularityFilter(filteredMovies, f);
    ChainOk(movies, t, q, c, g, p, z, x1, x2, x3, x4, x5, filteredMovies);
    return Some(filteredMovies);
  }

  // ---------------------------------------------------------------- properties

  /**
   * `filter_by_decade(d)` keeps exactly the movies with a readable year in `d .. d + 9`;
   * a bound that is falsy (`d == 0` for the lower one, `d == -9` for the upper) is ignored.
   */
  lemma DecadeSpan(movies: seq<Movie>, decade: int, m: Movie)
    ensures m in Select(movies, YearTest(Some(decade), Some(decade + 9))) <==>
      m in movies && ReleaseYear(m).Some?
      && (decade == 0 || decade <= ReleaseYear(m).value)
      && (decade == -9 || ReleaseYear(m).value <= decade + 9)
  {
    SelectSpec(movies, YearTest(Some(decade), Some(decade + 9)));
  }

  /** `filter_by_runtime` drops every movie without a (non-zero) runtime, whatever the bounds. */
  lemma RuntimeDropsUntimed(movies: seq<Movie>, minRuntime: Option<int>, maxRuntime: Option<int>)
    ensures forall m <- Select(movies, RuntimeTest(minRuntime, maxRuntime)) :: m.runtime.Some? && m.runtime.value != 0
  {
    SelectSpec(movies, RuntimeTest(minRuntime, maxRuntime));
  }

  /** The two sample movies of the repository's filter checks. */
  const SampleMovie1 := Blank.(title := Some("Test Movie 1"), releaseDate := Some("2015-05-01"),
    voteAverage := Some(7.5), voteCount := Some(1000), runtime := Some(120), genres := Some([Genre(28, "Action")]))
  const SampleMovie2 := Blank.(title := Some("Test Movie 2"), releaseDate := Some("2020-03-15"),
    voteAverage := Some(8.2), voteCount := Some(5000), runtime := Some(150), genres := Some([Genre(35, "Comedy")]))

  /** The samples meet the hypotheses of `SampleFilters`. */
  lemma SampleYears()
    ensures ReleaseYear(SampleMovie1) == Some(2015) && ReleaseYear(SampleMovie2) == Some(2020)
    ensures SampleMovie1.voteAverage == Some(7.5) && SampleMovie2.voteAverage == Some(8.2)
    ensures SampleMovie1.runtime == Some(120) && SampleMovie2.runtime == Some(150)
  {
    Year2015();
    Year2020();
  }

  lemma Year2015()
    ensures BeforeFirst("2015-05-01", '-') == "2015" && ParseInt("2015") == Some(2015)
  {
    BeforeFirstOf("2015", '-', "05-01");
    assert "2015" + ['-'] + "05-01" == "2015-05-01";
    ParseFourDigits("2015");
  }

  lemma Year2020()
    ensures BeforeFirst("2020-03-15", '-') == "2020" && ParseInt("2020") == Some(2020)
  {
    BeforeFirstOf("2020", '-', "03-15");
    assert "2020" + ['-'] + "03-15" == "2020-03-15";
    ParseFourDigits("2020");
  }

  lemma SelectPair(m1: Movie, m2: Movie, keep: Movie -> bool)
    ensures Select([m1, m2], keep) == (if keep(m1) then [m1] else []) + (if keep(m2) then [m2] else [])
  {
    assert [m1, m2][..1] == [m1];
    assert [m1][..0] == [];
    assert Select([m1], keep) == Select([], keep) + (if keep(m1) then [m1] else []);
  }

  /**
   * The repository's filter checks, for any two movies with the samples' years, ratings
   * and runtimes: `min_year=2018` and `min_rating=8.0` keep only the second,
   * `max_runtime=130` only the first.
   */
  lemma SampleFilters(m1: Movie, m2: Movie)
    requires ReleaseYear(m1) == Some(2015) && ReleaseYear(m2) == Some(2020)
    requires m1.voteAverage == Some(7.5) && m2.voteAverage == Some(8.2)
    requires m1.runtime == Some(120) && m2.runtime == Some(150)
    ensures Select([m1, m2], YearTest(Some(2018), None)) == [m2]
    ensures Select([m1, m2], RatingTest(Some(8.0), None)) == [m2]
    ensures Select([m1, m2], RuntimeTest(None, Some(130))) == [m1]
  {
    SelectPair(m1, m2, YearTest(Some(2018), None));
    SelectPair(m1, m2, RatingTest(Some(8.0), None));
    SelectPair(m1, m2, RuntimeTest(None, Some(130)));
    assert !YearTest(Some(2018), None)(m1) && YearTest(Some(2018), None)(m2);
    assert !RatingTest(Some(8.0), None)(m1) && RatingTest(Some(8.0), None)(m2);
    assert RuntimeTest(None, Some(130))(m1) && !RuntimeTest(None, Some(130))(m2);
  }

  /** The call keeps `m`, or does not look at the list at all. */
  predicate Passes(step: Step, m: Movie) {
    IsNoOp(step) || StepTest(step)(m)
  }

  /**
   * A chain that reaches the end returns an order-preserving sub-list of its input whose
   * every movie passes every call of the chain; no call of it was a decade of `None`.
   */
  lemma {:induction false} PipelineSound(movies: seq<Movie>, steps: seq<Step>)
    requires Pipeline(movies, steps).Some?
    ensures IsSubsequence(Pipeline(movies, steps).value, movies)
    ensures forall m, i :: m in Pipeline(movies, steps).value && 0 <= i < |steps| ==> Passes(steps[i], m)
    ensures forall i :: 0 <= i < |steps| ==> steps[i] != ByDecade(None)
  {
    var r := Pipeline(movies, steps).value;
    if steps == [] {
      SubsequenceOfSelf(movies);
    } else {
      var init, s := steps[..|steps| - 1], steps[|steps| - 1];
      PipelineSound(movies, init);
      var x := Pipeline(movies, init).value;
      assert forall i :: 0 <= i < |init| ==> steps[i] == init[i];
      if !IsNoOp(s) {
        SelectSpec(x, StepTest(s));
        SubsequenceTransitive(r, x, movies);
      }
    }
  }

  /** A list every movie of which passes every call, none of them a decade of `None`, comes through unchanged. */
  lemma {:induction false} PipelineFixes(r: seq<Movie>, steps: seq<Step>)
    requires forall m, i :: m in r && 0 <= i < |steps| ==> Passes(steps[i], m)
    requires forall i :: 0 <= i < |steps| ==> steps[i] != ByDecade(None)
    ensures Pipeline(r, steps) == Some(r)
  {
    if steps != [] {
      var init, s := steps[..|steps| - 1], steps[|steps| - 1];
      assert forall i :: 0 <= i < |init| ==> init[i] == steps[i];
      PipelineFixes(r, init);
      if !IsNoOp(s) {
        assert forall m <- r :: StepTest(s)(m) by {
          forall m <- r ensures StepTest(s)(m) {
            assert Passes(steps[|steps| - 1], m);
          }
        }
        assert s != ByDecade(None);
        if s.ByGenres? {
          forall m <- r ensures !GenreIndexError(s.genreIds, m) {
            assert KeepsGenres(s.genreIds, s.genreNames, m);
          }
          AnyGenreIndexErrorSpec(s.genreIds, r);
        }
        SelectAll(r, StepTest(s));
        assert !Raises(r, s);
      }
    }
  }

  /** Filtering the result of `apply_filters` again with the same filters changes nothing. */
  lemma PipelineIdempotent(movies: seq<Movie>, steps: seq<Step>)
    requires Pipeline(movies, steps).Some?
    ensures Pipeline(Pipeline(movies, steps).value, steps) == Pipeline(movies, steps)
  {
    PipelineSound(movies, steps);
    PipelineFixes(Pipeline(movies, steps).value, steps);
  }

  /** A `decade` key holding `None` makes `apply_filters` raise, whatever the other keys. */
  lemma DecadeNoneRaises(movies: seq<Movie>, f: FilterSet)
    requires f.decade == Given(None)
    ensures Pipeline(movies, Steps(f)) == None
  {
    var w1 := When(f.minYear.Given? || f.maxYear.Given?, ByYear(f.minYear.Get(), f.maxYear.Get()));
    assert TemporalSteps(f) == w1 + [ByDecade(None)];
    EndsWithDecadeNone(movies, w1);
    ChainFailsFirst(movies, TemporalSteps(f), QualitySteps(f), ContentSteps(f), GenreSteps(f),
                    PersonnelSteps(f), PopularitySteps(f));
  }

  /** A decade call with `None` raises on whatever list the calls before it leave. */
  lemma EndsWithDecadeNone(movies: seq<Movie>, w: seq<Step>)
    ensures Pipeline(movies, w + [ByDecade(None)]) == None
  {
    assert (w + [ByDecade(None)])[..|w|] == w;
  }
}
