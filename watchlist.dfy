/**
 * `WatchlistManager` (enhanced_features.py): the movies a user wants to see, the movies
 * already seen and the user's ratings, all three updated in place. Movies are told apart
 * by their `id` key (`m.get('id')`, so a missing id is a value of its own); ratings are a
 * dictionary keyed by `movie.get('title')`.
 */
module Watchlist {
  import opened Wrappers
  import opened PySeq
  import opened PyDict
  import opened Movies

  /** No two movies in the list share an id. `add_to_watchlist` keeps this so. */
  ghost predicate DistinctIds(movies: seq<Movie>) {
    forall i, j :: 0 <= i < j < |movies| ==> movies[i].id != movies[j].id
  }

  /** Some movie of the list carries this id. */
  predicate HasId(movies: seq<Movie>, id: Option<int>) {
    exists k :: 0 <= k < |movies| && movies[k].id == id
  }

  /** `[m for m in movies if m.get('id') != movie_id]` */
  function WithoutId(movies: seq<Movie>, movieId: int): (r: seq<Movie>)
    ensures IsSubsequence(r, movies)
    ensures forall m :: m in r <==> m in movies && m.id != Some(movieId)
  {
    if movies == [] then []
    else
      var init, last := movies[..|movies| - 1], movies[|movies| - 1];
      var rest := WithoutId(init, movieId);
      assert movies == init + [last];
      SubsequenceExtend(rest, init, last);
      if last.id != Some(movieId) then
        assert (rest + [last])[..|rest|] == rest;
        rest + [last]
      else rest
  }

  /** Each movie without that id is kept as many times as it occurs; the others not at all. */
  lemma {:induction false} WithoutIdCounts(movies: seq<Movie>, movieId: int, m: Movie)
    ensures multiset(WithoutId(movies, movieId))[m] == if m.id != Some(movieId) then multiset(movies)[m] else 0
  {
    if movies != [] {
      var init, last := movies[..|movies| - 1], movies[|movies| - 1];
      WithoutIdCounts(init, movieId, m);
      assert movies == init + [last];
      assert multiset(movies) == multiset(init) + multiset{last};
    }
  }

  /** Removing movies cannot create two entries with the same id. */
  lemma {:induction false} WithoutIdDistinct(movies: seq<Movie>, movieId: int)
    requires DistinctIds(movies)
    ensures DistinctIds(WithoutId(movies, movieId))
  {
    if movies != [] {
      var init, last := movies[..|movies| - 1], movies[|movies| - 1];
      WithoutIdDistinct(init, movieId);
      var rest := WithoutId(init, movieId);
      if last.id != Some(movieId) {
        forall i | 0 <= i < |rest|
          ensures rest[i].id != last.id
        {
          assert rest[i] in init;
          var j :| 0 <= j < |init| && init[j] == rest[i];
          assert movies[j] == init[j];
        }
        assert WithoutId(movies, movieId) == rest + [last];
      }
    }
  }

  /** `next((m for m in movies if m.get('id') == movie_id), None)`: the first movie with that id. */
  function FirstWithId(movies: seq<Movie>, movieId: int): (r: Option<Movie>)
    ensures r.None? <==> !HasId(movies, Some(movieId))
    ensures r.Some? ==> exists k :: 0 <= k < |movies| && movies[k] == r.value && r.value.id == Some(movieId)
                                    && forall j :: 0 <= j < k ==> movies[j].id != Some(movieId)
  {
    if movies == [] then None
    else if movies[0].id == Some(movieId) then Some(movies[0])
    else
      var r := FirstWithId(movies[1..], movieId);
      assert forall k :: 0 < k < |movies| ==> movies[k] == movies[1..][k - 1];
      r
  }

  class WatchlistManager {
    var watchlist: seq<Movie>
    var watched: seq<Movie>
    var ratings: seq<(Option<string>, real)>

    ghost predicate Valid()
      reads this
    {
      DistinctIds(watchlist) && DistinctKeys(ratings)
    }

    constructor ()
      ensures Valid()
      ensures watchlist == [] && watched == [] && ratings == []
    {
      watchlist := [];
      watched := [];
      ratings := [];
    }

    /** Appends the movie and answers true exactly when no listed movie has its id. */
    method AddToWatchlist(movie: Movie) returns (added: bool)
      requires Valid()
      modifies this
      ensures Valid()
      ensures added <==> !HasId(old(watchlist), movie.id)
      ensures watchlist == if added then old(watchlist) + [movie] else old(watchlist)
      ensures watched == old(watched) && ratings == old(ratings)
    {
      var movieId := movie.id;
      if !HasId(watchlist, movieId) {
        watchlist := watchlist + [movie];
        return true;
      }
      return false;
    }

    /** Drops every entry with this id, keeping the others in order. */
    method RemoveFromWatchlist(movieId: int)
      requires Valid()
      modifies this
      ensures Valid()
      ensures watchlist == WithoutId(old(watchlist), movieId)
      ensures watched == old(watched) && ratings == old(ratings)
    {
      WithoutIdDistinct(watchlist, movieId);
      watchlist := WithoutId(watchlist, movieId);
    }

    /**
     * Moves the first movie with this id to `watched` and records a truthy rating under
     * its title; an id that is not on the watchlist changes nothing.
     */
    method MarkAsWatched(movieId: int, rating: Option<real>)
      requires Valid()
      modifies this
      ensures Valid()
      ensures !HasId(old(watchlist), Some(movieId)) ==>
                watchlist == old(watchlist) && watched == old(watched) && ratings == old(ratings)
      ensures HasId(old(watchlist), Some(movieId)) ==>
                watched == old(watched) + [FirstWithId(old(watchlist), movieId).value]
                && watchlist == WithoutId(old(watchlist), movieId)
                && ratings == if RealTruthy(rating)
                              then Put(old(ratings), FirstWithId(old(watchlist), movieId).value.title, rating.value)
                              else old(ratings)
    {
      var movie := FirstWithId(watchlist, movieId);
      // A matching movie has an 'id' key, so the dictionary is non-empty and truthy.
      if movie.Some? {
        watched := watched + [movie.value];
        RemoveFromWatchlist(movieId);
        if RealTruthy(rating) {
          PutSpec(ratings, movie.value.title, rating.value);
          ratings := Put(ratings, movie.value.title, rating.value);
        }
      }
    }

    method GetWatchlist() returns (r: seq<Movie>)
      requires Valid()
      ensures r == watchlist
      ensures DistinctIds(r)
    {
      r := watchlist;
    }

    method GetWatched() returns (r: seq<Movie>)
      ensures r == watched
    {
      r := watched;
    }

    method GetRatings() returns (r: seq<(Option<string>, real)>)
      requires Valid()
      ensures r == ratings
      ensures DistinctKeys(r)
    {
      r := ratings;
    }
  }

  /**
   * The watchlist walk-through of test_functionality.py: adding a movie twice succeeds
   * once, and marking it watched with 8.5 records that rating under its title.
   */
  method WatchlistWalkthrough() returns (items: nat, watchedCount: nat, rating: Option<real>)
    ensures items == 1 && watchedCount == 1 && rating == Some(8.5)
  {
    var manager := new WatchlistManager();
    var movie := Blank.(id := Some(1), title := Some("Test Movie"));
    var first := manager.AddToWatchlist(movie);
    assert first;
    var second := manager.AddToWatchlist(movie);
    assert manager.watchlist[0].id == movie.id;
    assert !second;
    var list := manager.GetWatchlist();
    items := |list|;
    manager.MarkAsWatched(1, Some(8.5));
    var seen := manager.GetWatched();
    watchedCount := |seen|;
    var ratings := manager.GetRatings();
    PutAt([], Some("Test Movie"), 8.5, Some("Test Movie"));
    rating := Lookup(ratings, Some("Test Movie"));
  }
}
