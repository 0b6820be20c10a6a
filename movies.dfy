/**
 * The movie record as the metadata provider delivers it: a dictionary whose keys may
 * be missing. Each key the code probes is an `Option` field; `None` stands for a missing
 * key (a JSON `null` is not told apart from a missing key).
 */
module Movies {
  import opened Wrappers

  /** One entry of `genres`: a `{'id': ..., 'name': ...}` dictionary. */
  datatype Genre = Genre(id: int, name: string)

  /** One entry of `credits['crew']`; `job` is read with `.get('job')`. */
  datatype CrewMember = CrewMember(name: string, job: Option<string>)

  /**
   * A non-empty `credits` dictionary. Its `cast` and `crew` are read with
   * `.get(key, [])`, so a missing list is an empty one; cast entries are their names.
   */
  datatype Credits = Credits(cast: seq<string>, crew: seq<CrewMember>)

  /** One entry of `reviews['results']`. */
  datatype Review = Review(author: Option<string>, content: Option<string>)

  datatype Movie = Movie(
    id: Option<int>,
    title: Option<string>,
    releaseDate: Option<string>,     // 'YYYY-MM-DD' or ''
    voteAverage: Option<real>,
    voteCount: Option<int>,
    runtime: Option<int>,
    popularity: Option<real>,
    originalLanguage: Option<string>,
    overview: Option<string>,
    director: Option<string>,
    genres: Option<seq<Genre>>,      // detail records: (id, name) dictionaries
    genreIds: Option<seq<int>>,      // list records: bare ids under 'genre_ids'
    keywords: Option<seq<string>>,   // names under keywords['keywords']; None when that key is missing
    cast: Option<seq<string>>,       // a flat cast list: the actors' names
    credits: Option<Credits>,        // None for a missing or empty credits dictionary
    reviews: Option<seq<Review>>)    // reviews['results']; None when there is no such list

  /** A record with no keys at all. */
  const Blank := Movie(None, None, None, None, None, None, None, None, None, None, None, None, None, None, None, None)
}
