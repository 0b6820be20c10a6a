/**
 * `RecommendationEngine` (recommendation_engine.py): selection, ordering and combination
 * around two black boxes, the TF-IDF/cosine similarity of the feature strings and
 * TextBlob's polarity. Both are constants of the engine object, given when it is built,
 * with the guarantees the code relies on stated in `OraclesSound`.
 */
module Recommendation {
  import opened Wrappers
  import opened PyText
  import opened PySeq
  import opened PyDict
  import opened Movies

  // ---------------------------------------------------------------- _combine_features

  function GenreNames(gs: seq<Genre>): seq<string>
  {
    seq(|gs|, i requires 0 <= i < |gs| => gs[i].name)
  }

  /**
   * The parts `_combine_features` collects, in order: genre names, the overview (also
   * an empty one), keyword names, the first five cast names, the director (if non-empty).
   * The title is not among them.
   */
  function FeatureParts(m: Movie): seq<string>
  {
    GenrePart(m) + OverviewPart(m) + KeywordPart(m) + CastPart(m) + DirectorPart(m)
  }

  function GenrePart(m: Movie): seq<string> {
    if SeqTruthy(m.genres) then GenreNames(m.genres.value) else []
  }

  function OverviewPart(m: Movie): seq<string> {
    if m.overview.Some? then [m.overview.value] else []
  }

  function KeywordPart(m: Movie): seq<string> {
    if SeqTruthy(m.keywords) then m.keywords.value else []
  }

  function CastPart(m: Movie): seq<string> {
    if SeqTruthy(m.cast) then Take(m.cast.value, 5) else []
  }

  function DirectorPart(m: Movie): seq<string> {
    if SeqTruthy(m.director) then [m.director.value] else []
  }

  /** `' '.join(features).lower()` */
  function FeatureString(m: Movie): string
  {
    Lower(Join(FeatureParts(m), " "))
  }

  function FeatureStrings(movies: seq<Movie>): (fs: seq<string>)
    ensures |fs| == |movies|
  {
    seq(|movies|, i requires 0 <= i < |movies| => FeatureString(movies[i]))
  }

  lemma {:induction false} JoinContains(parts: seq<string>, sep: string, k: int)
    requires 0 <= k < |parts|
    ensures Contains(Join(parts, sep), parts[k])
  {
    var j := Join(parts, sep);
    if |parts| == 1 {
      assert j[0..|parts[0]|] == parts[0];
      assert OccursAt(j, parts[0], 0);
    } else {
      var rest := Join(parts[1..], sep);
      assert j == parts[0] + sep + rest;
      if k == 0 {
        assert j[0..|parts[0]|] == parts[0];
        assert OccursAt(j, parts[0], 0);
      } else {
        JoinContains(parts[1..], sep, k - 1);
        assert parts[1..][k - 1] == parts[k];
        var i :| 0 <= i <= |rest| - |parts[k]| && OccursAt(rest, parts[k], i);
        var off := |parts[0]| + |sep|;
        assert j[off + i..off + i + |parts[k]|] == rest[i..i + |parts[k]|];
        assert OccursAt(j, parts[k], off + i);
      }
    }
  }

  lemma LowerContains(hay: string, needle: string)
    requires Contains(hay, needle)
    ensures Contains(Lower(hay), Lower(needle))
  {
    var i :| 0 <= i <= |hay| - |needle| && OccursAt(hay, needle, i);
    assert Lower(hay)[i..i + |needle|] == Lower(needle);
    assert OccursAt(Lower(hay), Lower(needle), i);
  }

  /** Every part `_combine_features` collects occurs, lower-cased, in the feature string. */
  lemma FeaturePartsOccur(m: Movie, k: int)
    requires 0 <= k < |FeatureParts(m)|
    ensures Contains(FeatureString(m), Lower(FeatureParts(m)[k]))
  {
    JoinContains(FeatureParts(m), " ", k);
    LowerContains(Join(FeatureParts(m), " "), FeatureParts(m)[k]);
  }

  /** The feature string holds no upper-case letter. */
  lemma FeatureStringIsLower(m: Movie)
    ensures forall i :: 0 <= i < |FeatureString(m)| ==> !('A' <= FeatureString(m)[i] <= 'Z')
  {
  }

  /** The title, and cast names after the fifth, do not change the feature string. */
  lemma FeatureStringIgnores(m: Movie, title: Option<string>, cast: seq<string>)
    requires |cast| >= 5
    ensures FeatureString(m.(title := title)) == FeatureString(m)
    ensures FeatureString(m.(cast := Some(cast))) == FeatureString(m.(cast := Some(cast[..5])))
  {
    assert Take(cast, 5) == cast[..5] == Take(cast[..5], 5);
  }

  // The same parts as `_combine_features` reads them from a row of a pandas frame.

  /** Which keys `_combine_features` tests with `in` are columns of the frame: some movie has them. */
  datatype Columns = Columns(genres: bool, director: bool)

  function ColumnsOf(movies: seq<Movie>): Columns
  {
    Columns(exists m <- movies :: m.genres.Some?, exists m <- movies :: m.director.Some?)
  }

  /**
   * A key that is a column but missing from this movie reads as NaN, which is truthy
   * and not a list, so `str(NaN)` is appended as the word "nan". (A NaN overview fails
   * `pd.notna`; NaN keywords or cast fail the `isinstance` tests.)
   */
  function FrameFeatureParts(m: Movie, cols: Columns): seq<string>
  {
    (if m.genres.Some? then GenreNames(m.genres.value) else if cols.genres then ["nan"] else [])
    + (if m.overview.Some? then [m.overview.value] else [])
    + m.keywords.GetOr([])
    + Take(m.cast.GetOr([]), 5)
    + (if m.director.Some? then (if m.director.value != "" then [m.director.value] else [])
       else if cols.director then ["nan"] else [])
  }

  function FrameFeatureString(m: Movie, cols: Columns): string
  {
    Lower(Join(FrameFeatureParts(m, cols), " "))
  }

  /** A record without keys, in a frame where another movie has genres, gets the feature string "nan". */
  lemma FrameNanFeature()
    ensures FrameFeatureString(Blank, ColumnsOf([Blank, Blank.(genres := Some([]))])) == "nan"
    ensures FeatureString(Blank) == ""
  {
    assert ColumnsOf([Blank, Blank.(genres := Some([]))]).genres by {
      assert Blank.(genres := Some([])) in [Blank, Blank.(genres := Some([]))];
    }
    assert FrameFeatureParts(Blank, ColumnsOf([Blank, Blank.(genres := Some([]))])) == ["nan"];
    assert Lower("nan") == "nan";
    assert FeatureParts(Blank) == [];
  }

  /** Where no NaN arises the frame reading agrees with `FeatureString`. */
  lemma FrameFeatureAgrees(m: Movie, cols: Columns)
    requires m.genres.Some? || !cols.genres
    requires m.director.Some? || !cols.director
    ensures FrameFeatureString(m, cols) == FeatureString(m)
  {
    assert FrameFeatureParts(m, cols) == FeatureParts(m);
  }

  /** The `combined_features` column as `apply` over the frame's rows computes it. */
  function FrameFeatureStrings(movies: seq<Movie>): (fs: seq<string>)
    ensures |fs| == |movies|
  {
    seq(|movies|, i requires 0 <= i < |movies| => FrameFeatureString(movies[i], ColumnsOf(movies)))
  }

  /**
   * When every movie has `genres` or none has, and likewise for `director`, the column of
   * the frame rows is the column of the movie dictionaries.
   */
  lemma FrameFeaturesAgree(movies: seq<Movie>)
    requires (forall m <- movies :: m.genres.Some?) || (forall m <- movies :: m.genres.None?)
    requires (forall m <- movies :: m.director.Some?) || (forall m <- movies :: m.director.None?)
    ensures FrameFeatureStrings(movies) == FeatureStrings(movies)
  {
    var cols := ColumnsOf(movies);
    forall i | 0 <= i < |movies|
      ensures FrameFeatureStrings(movies)[i] == FeatureStrings(movies)[i]
    {
      assert movies[i] in movies;
      FrameFeatureAgrees(movies[i], cols);
    }
  }

  // ---------------------------------------------------------------- oracles and ordering

  /** numpy's `argsort`: the positions of `xs`, listed so that the values ascend. Ties may come in any order. */
  ghost predicate IsArgsort(p: seq<int>, xs: seq<real>) {
    |p| == |xs|
    && (forall i :: 0 <= i < |p| ==> 0 <= p[i] < |xs|)
    && (forall i, j :: 0 <= i < j < |p| ==> p[i] != p[j])
    && (forall i, j :: 0 <= i < j < |p| ==> xs[p[i]] <= xs[p[j]])
  }

  /** A table of pairwise similarities for `k` documents. */
  ghost predicate IsSquare(t: seq<seq<real>>, k: nat) {
    |t| == k && forall i :: 0 <= i < |t| ==> |t[i]| == k
  }

  /** The row whose title equals `movieTitle` ignoring case. */
  predicate TitleMatches(m: Movie, movieTitle: string) {
    m.title.Some? && Lower(m.title.value) == Lower(movieTitle)
  }

  /** `df[df['title'].str.lower() == movie_title.lower()].index[0]`, `None` for the `IndexError`. */
  function FirstTitleMatch(rows: seq<Movie>, movieTitle: string): (idx: Option<nat>)
    ensures idx.Some? ==> idx.value < |rows| && TitleMatches(rows[idx.value], movieTitle)
    ensures idx.Some? ==> forall i :: 0 <= i < idx.value ==> !TitleMatches(rows[i], movieTitle)
    ensures idx.None? ==> forall i :: 0 <= i < |rows| ==> !TitleMatches(rows[i], movieTitle)
  {
    if rows == [] then None
    else if TitleMatches(rows[0], movieTitle) then Some(0)
    else
      match FirstTitleMatch(rows[1..], movieTitle)
      case None => None
      case Some(i) => Some(i + 1)
  }

  function TitleOf(m: Movie): string { m.title.GetOr("") }

  /** The sort key of `sorted(d.items(), key=lambda x: x[1], reverse=True)`. */
  function ScoreKey(p: (string, real)): (real, real) { (p.1, 0.0) }

  /** The sort key `(sentiment, vote_average)` of `sentiment_based_recommendations`. */
  function SentimentKey(x: (string, real, real)): (real, real) { (x.1, x.2) }

  lemma FeatureStringsStep(movies: seq<Movie>, i: int)
    requires 0 <= i < |movies|
    ensures FeatureStrings(movies[..i + 1]) == FeatureStrings(movies[..i]) + [FeatureString(movies[i])]
  {
    var a, b := FeatureStrings(movies[..i + 1]), FeatureStrings(movies[..i]) + [FeatureString(movies[i])];
    forall k | 0 <= k < |a|
      ensures a[k] == b[k]
    {
      if k < i {
        assert movies[..i + 1][k] == movies[..i][k];
      } else {
        assert movies[..i + 1][k] == movies[i];
      }
    }
  }

  function Max(a: real, b: real): real { if a >= b then a else b }

  // ---------------------------------------------------------------- dictionary accumulation

  /** `[title for title, rating in user_ratings.items() if rating >= 4]` */
  function Liked(userRatings: seq<(string, real)>): (liked: seq<string>)
    ensures forall t :: t in liked <==> exists k :: 0 <= k < |userRatings| && userRatings[k].0 == t && userRatings[k].1 >= 4.0
  {
    if userRatings == [] then []
    else
      var init, last := userRatings[..|userRatings| - 1], userRatings[|userRatings| - 1];
      var r := Liked(init);
      assert forall k :: 0 <= k < |init| ==> init[k] == userRatings[k];
      if last.1 >= 4.0 then r + [last.0] else r
  }

  /** Without a rating of at least 4 nothing is liked. */
  lemma {:induction false} NoneLiked(userRatings: seq<(string, real)>)
    requires forall k :: 0 <= k < |userRatings| ==> userRatings[k].1 < 4.0
    ensures Liked(userRatings) == []
  {
    if userRatings != [] {
      var init := userRatings[..|userRatings| - 1];
      assert forall k :: 0 <= k < |init| ==> init[k] == userRatings[k];
      NoneLiked(init);
    }
  }

  /** One neighbour merged into `recommendations` as `collaborative_filtering_simple` merges it. */
  function MaxMerge(d: seq<(string, real)>, p: (string, real), rated: seq<(string, real)>): seq<(string, real)>
  {
    if HasKey(rated, p.0) then d
    else if HasKey(d, p.0) then Put(d, p.0, Max(Lookup(d, p.0).value, p.1))
    else Put(d, p.0, p.1)
  }

  lemma MaxMergeAt(d: seq<(string, real)>, p: (string, real), rated: seq<(string, real)>, t: string)
    requires DistinctKeys(d)
    ensures DistinctKeys(MaxMerge(d, p, rated))
    ensures HasKey(MaxMerge(d, p, rated), t) <==> HasKey(d, t) || (p.0 == t && !HasKey(rated, t))
    ensures Lookup(MaxMerge(d, p, rated), t) ==
      if p.0 != t || HasKey(rated, t) then Lookup(d, t)
      else if HasKey(d, t) then Some(Max(Lookup(d, t).value, p.1))
      else Some(p.1)
  {
    if !HasKey(rated, p.0) {
      PutAt(d, p.0, if HasKey(d, p.0) then Max(Lookup(d, p.0).value, p.1) else p.1, t);
    }
  }

  function MaxMergeAll(pairs: seq<(string, real)>, rated: seq<(string, real)>): seq<(string, real)>
  {
    if pairs == [] then [] else MaxMerge(MaxMergeAll(pairs[..|pairs| - 1], rated), pairs[|pairs| - 1], rated)
  }

  /**
   * The merged dictionary has distinct titles, holds a title exactly when it was offered
   * and not rated, and then with the largest score offered for it.
   */
  lemma {:induction false} MaxMergeAllAt(pairs: seq<(string, real)>, rated: seq<(string, real)>, t: string)
    ensures DistinctKeys(MaxMergeAll(pairs, rated))
    ensures HasKey(MaxMergeAll(pairs, rated), t) <==> !HasKey(rated, t) && t in Keys(pairs)
    ensures HasKey(MaxMergeAll(pairs, rated), t) ==>
      forall k :: 0 <= k < |pairs| && pairs[k].0 == t ==> pairs[k].1 <= Lookup(MaxMergeAll(pairs, rated), t).value
    ensures HasKey(MaxMergeAll(pairs, rated), t) ==>
      exists k :: 0 <= k < |pairs| && pairs[k] == (t, Lookup(MaxMergeAll(pairs, rated), t).value)
  {
    if pairs != [] {
      var init, p := pairs[..|pairs| - 1], pairs[|pairs| - 1];
      var d := MaxMergeAll(init, rated);
      MaxMergeAllAt(init, rated, t);
      MaxMergeAt(d, p, rated, t);
      assert Keys(pairs) == Keys(init) + [p.0];
      assert forall k :: 0 <= k < |init| ==> init[k] == pairs[k];
      var r := MaxMergeAll(pairs, rated);
      if HasKey(r, t) {
        if t == p.0 && Lookup(r, t).value == p.1 {
          assert pairs[|pairs| - 1] == (t, Lookup(r, t).value);
        } else {
          var k :| 0 <= k < |init| && init[k] == (t, Lookup(d, t).value);
          assert pairs[k] == (t, Lookup(r, t).value);
        }
      }
    }
  }

  /** The sum of the scores `pairs` gives `title`. */
  function ScoreSum(pairs: seq<(string, real)>, title: string): real
  {
    if pairs == [] then 0.0
    else ScoreSum(pairs[..|pairs| - 1], title) + (if pairs[|pairs| - 1].0 == title then pairs[|pairs| - 1].1 else 0.0)
  }

  /** The two weights `hybrid_recommendations` gives its sources of scores. */
  datatype Weight = ContentWeight | CollaborativeWeight

  /** `score * 0.4` for content-based scores, `score * 0.3` for collaborative ones. */
  function Weigh(w: Weight, score: real): real
  {
    match w
    case ContentWeight => score * 0.4
    case CollaborativeWeight => score * 0.3
  }

  /** The factor `Weigh` applies. */
  function Factor(w: Weight): real
  {
    match w
    case ContentWeight => 0.4
    case CollaborativeWeight => 0.3
  }

  /** The sum of the weighted scores `pairs` gives `title`. */
  function WeightedSum(pairs: seq<(string, real)>, title: string, w: Weight): real
  {
    if pairs == [] then 0.0
    else WeightedSum(pairs[..|pairs| - 1], title, w) + (if pairs[|pairs| - 1].0 == title then Weigh(w, pairs[|pairs| - 1].1) else 0.0)
  }

  lemma {:induction false} WeightedSumScales(pairs: seq<(string, real)>, title: string, w: Weight)
    ensures WeightedSum(pairs, title, w) == Factor(w) * ScoreSum(pairs, title)
  {
    if pairs != [] {
      WeightedSumScales(pairs[..|pairs| - 1], title, w);
      match w
      case ContentWeight =>
      case CollaborativeWeight =>
    }
  }

  /** `d[title] = d.get(title, 0) + score * weight` */
  function AddOne(d: seq<(string, real)>, p: (string, real), w: Weight): seq<(string, real)>
  {
    Put(d, p.0, Lookup(d, p.0).GetOr(0.0) + Weigh(w, p.1))
  }

  lemma AddOneAt(d: seq<(string, real)>, p: (string, real), w: Weight, t: string)
    requires DistinctKeys(d)
    ensures DistinctKeys(AddOne(d, p, w))
    ensures HasKey(AddOne(d, p, w), t) <==> HasKey(d, t) || p.0 == t
    ensures Lookup(AddOne(d, p, w), t).GetOr(0.0) == Lookup(d, t).GetOr(0.0) + (if p.0 == t then Weigh(w, p.1) else 0.0)
  {
    PutAt(d, p.0, Lookup(d, p.0).GetOr(0.0) + Weigh(w, p.1), t);
  }

  /** `for title, score in recs: d[title] = d.get(title, 0) + score * weight` */
  function AddAll(d: seq<(string, real)>, pairs: seq<(string, real)>, w: Weight): seq<(string, real)>
  {
    if pairs == [] then d else AddOne(AddAll(d, pairs[..|pairs| - 1], w), pairs[|pairs| - 1], w)
  }

  lemma {:induction false} AddAllSums(d: seq<(string, real)>, pairs: seq<(string, real)>, w: Weight, t: string)
    requires DistinctKeys(d)
    ensures DistinctKeys(AddAll(d, pairs, w))
    ensures HasKey(AddAll(d, pairs, w), t) <==> HasKey(d, t) || t in Keys(pairs)
    ensures Lookup(AddAll(d, pairs, w), t).GetOr(0.0) == Lookup(d, t).GetOr(0.0) + WeightedSum(pairs, t, w)
  {
    if pairs != [] {
      var init := pairs[..|pairs| - 1];
      AddAllSums(d, init, w, t);
      AddOneAt(AddAll(d, init, w), pairs[|pairs| - 1], w, t);
      assert Keys(pairs) == Keys(init) + [pairs[|pairs| - 1].0];
    }
  }

  /** Exactly the offered titles are added, and each title gains its total score times the weight. */
  lemma AddAllAt(d: seq<(string, real)>, pairs: seq<(string, real)>, w: Weight, t: string)
    requires DistinctKeys(d)
    ensures DistinctKeys(AddAll(d, pairs, w))
    ensures HasKey(AddAll(d, pairs, w), t) <==> HasKey(d, t) || t in Keys(pairs)
    ensures Lookup(AddAll(d, pairs, w), t).GetOr(0.0) == Lookup(d, t).GetOr(0.0) + Factor(w) * ScoreSum(pairs, t)
  {
    AddAllSums(d, pairs, w, t);
    WeightedSumScales(pairs, t, w);
  }

  /** The sum of the sentiments `rows` gives `title`. */
  function SentimentSum(rows: seq<(string, real, real)>, title: string): real
  {
    if rows == [] then 0.0
    else SentimentSum(rows[..|rows| - 1], title) + (if rows[|rows| - 1].0 == title then rows[|rows| - 1].1 else 0.0)
  }

  /** `if title in d: d[title] += sentiment * 0.3` */
  function BoostOne(d: seq<(string, real)>, x: (string, real, real)): seq<(string, real)>
  {
    if HasKey(d, x.0) then Put(d, x.0, Lookup(d, x.0).value + x.1 * 0.3) else d
  }

  lemma BoostOneAt(d: seq<(string, real)>, x: (string, real, real), t: string)
    requires DistinctKeys(d)
    ensures DistinctKeys(BoostOne(d, x))
    ensures Keys(BoostOne(d, x)) == Keys(d)
    ensures Lookup(BoostOne(d, x), t).GetOr(0.0) ==
      Lookup(d, t).GetOr(0.0) + (if HasKey(d, t) && x.0 == t then x.1 * 0.3 else 0.0)
  {
    if HasKey(d, x.0) {
      PutSpec(d, x.0, Lookup(d, x.0).value + x.1 * 0.3);
      PutAt(d, x.0, Lookup(d, x.0).value + x.1 * 0.3, t);
    }
  }

  /** `for title, sentiment, rating in rows: if title in d: d[title] += sentiment * 0.3` */
  function Boost(d: seq<(string, real)>, rows: seq<(string, real, real)>): seq<(string, real)>
  {
    if rows == [] then d else BoostOne(Boost(d, rows[..|rows| - 1]), rows[|rows| - 1])
  }

  /** The boost keeps the titles and their order; a present title gains 0.3 times its total sentiment. */
  lemma {:induction false} BoostAt(d: seq<(string, real)>, rows: seq<(string, real, real)>, t: string)
    requires DistinctKeys(d)
    ensures DistinctKeys(Boost(d, rows))
    ensures Keys(Boost(d, rows)) == Keys(d)
    ensures Lookup(Boost(d, rows), t).GetOr(0.0) ==
      Lookup(d, t).GetOr(0.0) + (if HasKey(d, t) then 0.3 * SentimentSum(rows, t) else 0.0)
  {
    if rows != [] {
      var init := rows[..|rows| - 1];
      BoostAt(d, init, t);
      BoostOneAt(Boost(d, init), rows[|rows| - 1], t);
    }
  }

  /** What the top of the merged dictionary holds: best offers of titles nobody rated. */
  lemma TopMergedMember(offers: seq<(string, real)>, rated: seq<(string, real)>, n: int, p: (string, real))
    requires p in Take(SortDesc(MaxMergeAll(offers, rated), ScoreKey), n)
    ensures !HasKey(rated, p.0)
    ensures exists k :: 0 <= k < |offers| && offers[k] == p
    ensures forall k :: 0 <= k < |offers| && offers[k].0 == p.0 ==> offers[k].1 <= p.1
  {
    var d := MaxMergeAll(offers, rated);
    assert p in multiset(SortDesc(d, ScoreKey));
    assert p in multiset(d);
    var i :| 0 <= i < |d| && d[i] == p;
    MaxMergeAllAt(offers, rated, p.0);
    LookupAt(d, i);
  }

  /** Merging one more offer. */
  lemma MaxMergeStep(before: seq<(string, real)>, offers: seq<(string, real)>, j: int, rated: seq<(string, real)>)
    requires 0 <= j < |offers|
    ensures MaxMergeAll(before + offers[..j + 1], rated) == MaxMerge(MaxMergeAll(before + offers[..j], rated), offers[j], rated)
  {
    assert (before + offers[..j + 1])[..|before| + j] == before + offers[..j];
  }

  /**
   * The inner loop of `collaborative_filtering_simple`: each similar title the user has not
   * rated keeps the best score offered for it so far.
   */
  method MergeSimilar(recommendations: seq<(string, real)>, ghost before: seq<(string, real)>,
                      similar: seq<(string, real)>, userRatings: seq<(string, real)>)
    returns (merged: seq<(string, real)>)
    requires recommendations == MaxMergeAll(before, userRatings)
    ensures merged == MaxMergeAll(before + similar, userRatings)
  {
    merged := recommendations;
    assert before + similar[..0] == before;
    for j := 0 to |similar|
      invariant merged == MaxMergeAll(before + similar[..j], userRatings)
    {
      MaxMergeStep(before, similar, j, userRatings);
      var (title, score) := similar[j];
      if !HasKey(userRatings, title) {
        if HasKey(merged, title) {
          merged := Put(merged, title, Max(Lookup(merged, title).value, score));
        } else {
          merged := Put(merged, title, score);
        }
      }
    }
    assert similar[..|similar|] == similar;
  }

  /** Adding one more weighted score. */
  lemma AddAllStep(d: seq<(string, real)>, pairs: seq<(string, real)>, j: int, w: Weight)
    requires 0 <= j < |pairs|
    ensures AddAll(d, pairs[..j + 1], w) == AddOne(AddAll(d, pairs[..j], w), pairs[j], w)
  {
    assert pairs[..j + 1][..j] == pairs[..j];
  }

  /** Applying one more sentiment boost. */
  lemma BoostStep(d: seq<(string, real)>, rows: seq<(string, real, real)>, j: int)
    requires 0 <= j < |rows|
    ensures Boost(d, rows[..j + 1]) == BoostOne(Boost(d, rows[..j]), rows[j])
  {
    assert rows[..j + 1][..j] == rows[..j];
  }

  /** The update the source writes out for one weighted score is `AddOne`. */
  lemma AddOneIs(d: seq<(string, real)>, title: string, score: real, w: Weight, v: real)
    requires v == Lookup(d, title).GetOr(0.0) + Weigh(w, score)
    ensures Put(d, title, v) == AddOne(d, (title, score), w)
  {
    var p := (title, score);
    assert v == Lookup(d, p.0).GetOr(0.0) + Weigh(w, p.1);
  }

  /** The update the source writes out for one sentiment row is `BoostOne`. */
  lemma BoostOneIs(d: seq<(string, real)>, title: string, sentiment: real, rating: real, v: real)
    requires HasKey(d, title)
    requires v == Lookup(d, title).value + sentiment * 0.3
    ensures Put(d, title, v) == BoostOne(d, (title, sentiment, rating))
  {
    var x := (title, sentiment, rating);
    assert v == Lookup(d, x.0).value + x.1 * 0.3;
  }

  /**
   * One accumulation loop of `hybrid_recommendations`: each `(title, score)` adds its
   * weighted score to the title's entry, creating the entry at 0 when it is missing.
   */
  method AddScores(d: seq<(string, real)>, pairs: seq<(string, real)>, w: Weight) returns (r: seq<(string, real)>)
    ensures r == AddAll(d, pairs, w)
  {
    r := d;
    for j := 0 to |pairs|
      invariant r == AddAll(d, pairs[..j], w)
    {
      AddAllStep(d, pairs, j, w);
      var (title, score) := pairs[j];
      var v := Lookup(r, title).GetOr(0.0) + Weigh(w, score);
      AddOneIs(r, title, score, w, v);
      r := Put(r, title, v);
    }
    assert pairs[..|pairs|] == pairs;
  }

  /** The sentiment loop of `hybrid_recommendations`: only titles already present gain `0.3 * sentiment`. */
  method BoostScores(d: seq<(string, real)>, rows: seq<(string, real, real)>) returns (r: seq<(string, real)>)
    ensures r == Boost(d, rows)
  {
    r := d;
    for j := 0 to |rows|
      invariant r == Boost(d, rows[..j])
    {
      BoostStep(d, rows, j);
      var (title, sentiment, rating) := rows[j];
      if HasKey(r, title) {
        var v := Lookup(r, title).value + sentiment * 0.3;
        BoostOneIs(r, title, sentiment, rating, v);
        r := Put(r, title, v);
      }
    }
    assert rows[..|rows|] == rows;
  }

  /**
   * The positions `[1:n+1]` of a descending ranking of `row`: in range, still descending,
   * at most `n` of them and fewer than the row has.
   */
  lemma RankedSlice(row: seq<real>, order: seq<int>, n: int, s: seq<int>)
    requires |order| == |row|
    requires forall k :: 0 <= k < |order| ==> 0 <= order[k] < |row|
    requires forall k, l :: 0 <= k < l < |order| ==> row[order[k]] >= row[order[l]]
    requires s == Slice(order, 1, n + 1)
    ensures n >= 0 ==> |s| <= n
    ensures |row| > 0 ==> |s| < |row|
    ensures forall k :: 0 <= k < |s| ==> 0 <= s[k] < |row|
    ensures forall k, l :: 0 <= k < l < |s| ==> row[s[k]] >= row[s[l]]
  {
  }

  /** `[(titles[i], row[i]) for i in positions]` */
  function Pick(rows: seq<Movie>, row: seq<real>, positions: seq<int>): (recs: seq<(string, real)>)
    requires forall k :: 0 <= k < |positions| ==> 0 <= positions[k] < |rows| && positions[k] < |row|
    ensures |recs| == |positions|
    ensures forall k :: 0 <= k < |positions| ==> recs[k] == (TitleOf(rows[positions[k]]), row[positions[k]])
    ensures (forall k, l :: 0 <= k < l < |positions| ==> row[positions[k]] >= row[positions[l]]) ==>
              forall i, j :: 0 <= i < j < |recs| ==> recs[i].1 >= recs[j].1
  {
    seq(|positions|, k requires 0 <= k < |positions| => (TitleOf(rows[positions[k]]), row[positions[k]]))
  }

  // ---------------------------------------------------------------- the engine

  /** `movies_df`: the movies with their `combined_features` column. */
  datatype Frame = Frame(rows: seq<Movie>, combinedFeatures: seq<string>)

  class RecommendationEngine {
    /** TF-IDF over the feature strings, then `cosine_similarity`: entry `[i][j]` compares documents `i` and `j`. */
    const similarityOf: seq<string> -> seq<seq<real>>
    /** `ndarray.argsort()` */
    const argsort: seq<real> -> seq<int>
    /** `TextBlob(text).sentiment.polarity` */
    const polarity: string -> real

    var movies_df: Option<Frame>
    /** The vectorizer, represented by the feature strings it was fitted on. */
    var tfidf_vectorizer: Option<seq<string>>
    /** The TF-IDF matrix, represented by the similarity table it induces. */
    var tfidf_matrix: Option<seq<seq<real>>>

    ghost predicate OraclesSound() {
      (forall fs: seq<string> :: IsSquare(similarityOf(fs), |fs|))
      && (forall xs: seq<real> :: IsArgsort(argsort(xs), xs))
      && (forall s: string :: -1.0 <= polarity(s) <= 1.0)
    }

    /** The three fields are set together, by a `prepare_data` on a non-empty list of movies. */
    ghost predicate Valid()
      reads this
    {
      OraclesSound()
      && (movies_df.Some? <==> tfidf_matrix.Some?)
      && (movies_df.Some? <==> tfidf_vectorizer.Some?)
      && (movies_df.Some? ==>
            var rows := movies_df.value.rows;
            |rows| > 0
            && |movies_df.value.combinedFeatures| == |rows|
            && IsSquare(tfidf_matrix.value, |rows|))
    }

    constructor (similarityOf: seq<string> -> seq<seq<real>>, argsort: seq<real> -> seq<int>, polarity: string -> real)
      requires forall fs: seq<string> :: IsSquare(similarityOf(fs), |fs|)
      requires forall xs: seq<real> :: IsArgsort(argsort(xs), xs)
      requires forall s: string :: -1.0 <= polarity(s) <= 1.0
      ensures Valid()
      ensures movies_df == None && tfidf_vectorizer == None && tfidf_matrix == None
      ensures this.similarityOf == similarityOf && this.argsort == argsort && this.polarity == polarity
    {
      this.similarityOf := similarityOf;
      this.argsort := argsort;
      this.polarity := polarity;
      movies_df := None;
      tfidf_vectorizer := None;
      tfidf_matrix := None;
    }

    /** `_combine_features(row)`: extends a list of parts, then joins and lower-cases it. */
    method CombineFeatures(m: Movie) returns (r: string)
      ensures r == FeatureString(m)
    {
      var features: seq<string> := [];
      if SeqTruthy(m.genres) {
        features := features + GenreNames(m.genres.value);
      }
      assert features == GenrePart(m);
      if m.overview.Some? {
        features := features + [m.overview.value];
      }
      assert features == GenrePart(m) + OverviewPart(m);
      if SeqTruthy(m.keywords) {
        features := features + m.keywords.value;
      }
      assert features == GenrePart(m) + OverviewPart(m) + KeywordPart(m);
      if SeqTruthy(m.cast) {
        features := features + Take(m.cast.value, 5);
      }
      assert features == GenrePart(m) + OverviewPart(m) + KeywordPart(m) + CastPart(m);
      if SeqTruthy(m.director) {
        features := features + [m.director.value];
      }
      assert features == FeatureParts(m);
      r := Lower(Join(features, " "));
    }

    /** `movies_df.apply(lambda x: self._combine_features(x), axis=1)`: one feature string per row. */
    method CombineAllFeatures(movies: seq<Movie>) returns (features: seq<string>)
      ensures features == FeatureStrings(movies)
    {
      features := [];
      for i := 0 to |movies|
        invariant features == FeatureStrings(movies[..i])
      {
        FeatureStringsStep(movies, i);
        var f := CombineFeatures(movies[i]);
        features := features + [f];
      }
      assert movies[..|movies|] == movies;
    }

    /**
     * `prepare_data(movies)`: an empty list changes nothing; otherwise the frame, the
     * vectorizer and the matrix are all replaced.
     */
    method PrepareData(movies: seq<Movie>)
      requires Valid()
      modifies this
      ensures Valid()
      ensures movies == [] ==>
        movies_df == old(movies_df) && tfidf_vectorizer == old(tfidf_vectorizer) && tfidf_matrix == old(tfidf_matrix)
      ensures movies != [] ==>
        movies_df == Some(Frame(movies, FeatureStrings(movies)))
        && tfidf_vectorizer == Some(FeatureStrings(movies))
        && tfidf_matrix == Some(similarityOf(FeatureStrings(movies)))
    {
      if movies == [] {
        return;
      }
      var features := CombineAllFeatures(movies);
      movies_df := Some(Frame(movies, features));
      tfidf_vectorizer := Some(features);
      tfidf_matrix := Some(similarityOf(features));
    }

    predicate Prepared()
      reads this
    {
      movies_df.Some? && tfidf_matrix.Some?
    }

    /** `cosine_similarities.argsort()[::-1]`: a permutation of the positions, similarities descending. */
    function Ranked(row: seq<real>): (order: seq<int>)
      requires OraclesSound()
      ensures |order| == |row|
      ensures forall k :: 0 <= k < |order| ==> 0 <= order[k] < |row|
      ensures forall k, l :: 0 <= k < l < |order| ==> order[k] != order[l]
      ensures forall k, l :: 0 <= k < l < |order| ==> row[order[k]] >= row[order[l]]
    {
      assert IsArgsort(argsort(row), row);
      Reverse(argsort(row))
    }

    /** The positions `content_based_recommendations` reports: the ranking's `[1:n+1]`. */
    function ContentIndices(movieTitle: string, n: int): (ix: seq<int>)
      reads this
      requires Valid()
    {
      if !Prepared() then []
      else
        match FirstTitleMatch(movies_df.value.rows, movieTitle)
        case None => []
        case Some(idx) => Slice(Ranked(tfidf_matrix.value[idx]), 1, n + 1)
    }

    /**
     * `content_based_recommendations(movie_title, n)`: `[]` before any data or for an
     * unknown title; otherwise the titles and similarities of the ranking's positions
     * `1 .. n`, the top position dropped.
     */
    function ContentBased(movieTitle: string, n: int): (recs: seq<(string, real)>)
      reads this
      requires Valid()
      ensures !Prepared() ==> recs == []
      ensures Prepared() && FirstTitleMatch(movies_df.value.rows, movieTitle).None? ==> recs == []
      ensures n >= 0 ==> |recs| <= n
      ensures Prepared() ==> |recs| < |movies_df.value.rows|
      ensures forall i, j :: 0 <= i < j < |recs| ==> recs[i].1 >= recs[j].1
    {
      if !Prepared() then []
      else
        var rows := movies_df.value.rows;
        match FirstTitleMatch(rows, movieTitle)
        case None => []
        case Some(idx) =>
          var row := tfidf_matrix.value[idx];
          var similar := Slice(Ranked(row), 1, n + 1);
          RankedSlice(row, Ranked(row), n, similar);
          Pick(rows, row, similar)
    }

    /**
     * Each recommendation is the title of a distinct corpus row with that row's similarity
     * to the seed (the first row with the query's title), and none is the top-ranked row.
     */
    lemma ContentBasedRows(movieTitle: string, n: int)
      requires Valid() && Prepared()
      requires FirstTitleMatch(movies_df.value.rows, movieTitle).Some?
      ensures var idx := FirstTitleMatch(movies_df.value.rows, movieTitle).value;
        var ix := ContentIndices(movieTitle, n);
        var recs := ContentBased(movieTitle, n);
        |ix| == |recs|
        && (forall k :: 0 <= k < |ix| ==> 0 <= ix[k] < |movies_df.value.rows|)
        && (forall k, l :: 0 <= k < l < |ix| ==> ix[k] != ix[l])
        && (forall k :: 0 <= k < |ix| ==> ix[k] != Ranked(tfidf_matrix.value[idx])[0])
        && (forall k :: 0 <= k < |ix| ==>
              recs[k] == (TitleOf(movies_df.value.rows[ix[k]]), tfidf_matrix.value[idx][ix[k]]))
    {
    }

    /** `find_similar_movies`: the content-based recommendations scoring at least the threshold. */
    function FindSimilarMovies(movieTitle: string, nSimilar: int, threshold: real): (r: seq<(string, real)>)
      reads this
      requires Valid()
      ensures IsSubsequence(r, ContentBased(movieTitle, nSimilar))
      ensures forall p :: p in r <==> p in ContentBased(movieTitle, nSimilar) && p.1 >= threshold
    {
      AtLeast(ContentBased(movieTitle, nSimilar), threshold)
    }

    // ------------------------------------------------------------ sentiment

    function ReviewPolarities(reviews: seq<Review>): seq<real>
    {
      if reviews == [] then []
      else
        var init := ReviewPolarities(reviews[..|reviews| - 1]);
        var content := reviews[|reviews| - 1].content.GetOr("");
        if content != "" then init + [polarity(content)] else init
    }

    /**
     * The sentiment `sentiment_based_recommendations` gives a movie: the overview's polarity
     * (0 for none), averaged with the mean polarity of the non-empty reviews among the first five.
     */
    function MovieSentiment(m: Movie): real
    {
      var overview := m.overview.GetOr("");
      var base := if overview != "" then polarity(overview) else 0.0;
      if m.reviews.None? then base
      else
        var rs := ReviewPolarities(Take(m.reviews.value, 5));
        if rs == [] then base else (base + Mean(rs)) / 2.0
    }

    lemma {:induction false} ReviewPolaritiesBounds(reviews: seq<Review>)
      requires OraclesSound()
      ensures forall i :: 0 <= i < |ReviewPolarities(reviews)| ==> -1.0 <= ReviewPolarities(reviews)[i] <= 1.0
    {
      if reviews != [] {
        ReviewPolaritiesBounds(reviews[..|reviews| - 1]);
      }
    }

    /** A movie's sentiment is a polarity: it lies in [-1, 1]. */
    lemma MovieSentimentBounds(m: Movie)
      requires OraclesSound()
      ensures -1.0 <= MovieSentiment(m) <= 1.0
    {
      if m.reviews.Some? {
        var rs := ReviewPolarities(Take(m.reviews.value, 5));
        if rs != [] {
          ReviewPolaritiesBounds(Take(m.reviews.value, 5));
          MeanBounds(rs, -1.0, 1.0);
        }
      }
    }

    /** `movie_sentiments` after the loop: `(title, sentiment, vote_average)` of the movies at or above the threshold. */
    function SentimentRows(movies: seq<Movie>, minSentiment: real): seq<(string, real, real)>
    {
      if movies == [] then []
      else
        var init := SentimentRows(movies[..|movies| - 1], minSentiment);
        var m := movies[|movies| - 1];
        var s := MovieSentiment(m);
        if s >= minSentiment then init + [(m.title.GetOr("Unknown"), s, m.voteAverage.GetOr(0.0))] else init
    }

    lemma {:induction false} SentimentRowsSpec(movies: seq<Movie>, minSentiment: real)
      ensures forall x <- SentimentRows(movies, minSentiment) :: x.1 >= minSentiment
      ensures forall x <- SentimentRows(movies, minSentiment) ::
        exists m <- movies :: x == (m.title.GetOr("Unknown"), MovieSentiment(m), m.voteAverage.GetOr(0.0))
      ensures forall m <- movies :: MovieSentiment(m) >= minSentiment ==>
        (m.title.GetOr("Unknown"), MovieSentiment(m), m.voteAverage.GetOr(0.0)) in SentimentRows(movies, minSentiment)
    {
      if movies != [] {
        var init := movies[..|movies| - 1];
        SentimentRowsSpec(init, minSentiment);
        assert movies == init + [movies[|movies| - 1]];
      }
    }

    function SentimentResult(movies: seq<Movie>, minSentiment: real, n: int): seq<(string, real, real)>
    {
      Take(SortDesc(SentimentRows(movies, minSentiment), SentimentKey), n)
    }

    /**
     * The sentiment ranking holds only movies at or above the threshold, descending by
     * `(sentiment, vote_average)`, at most `n` of them, and all of them when `n` is large enough.
     */
    lemma SentimentResultSpec(movies: seq<Movie>, minSentiment: real, n: int)
      ensures forall x <- SentimentResult(movies, minSentiment, n) :: x.1 >= minSentiment
      ensures forall x <- SentimentResult(movies, minSentiment, n) ::
        exists m <- movies :: x == (m.title.GetOr("Unknown"), MovieSentiment(m), m.voteAverage.GetOr(0.0))
      ensures SortedDesc(SentimentResult(movies, minSentiment, n), SentimentKey)
      ensures n >= 0 ==> |SentimentResult(movies, minSentiment, n)| <= n
      ensures n >= |SentimentRows(movies, minSentiment)| ==>
        multiset(SentimentResult(movies, minSentiment, n)) == multiset(SentimentRows(movies, minSentiment))
    {
      var rows := SentimentRows(movies, minSentiment);
      var sorted := SortDesc(rows, SentimentKey);
      SentimentRowsSpec(movies, minSentiment);
      TakeSorted(sorted, SentimentKey, n);
      var r := Take(sorted, n);
      forall x | x in r ensures x in rows {
        assert x in multiset(sorted);
      }
      if n >= |rows| {
        assert r == sorted;
      }
    }

    /** `sentiment_based_recommendations(movies, min_sentiment, n)` */
    /** The review loop of `sentiment_based_recommendations`: the polarity of each non-empty review. */
    method ReviewScores(reviews: seq<Review>) returns (reviewSentiments: seq<real>)
      ensures reviewSentiments == ReviewPolarities(reviews)
    {
      reviewSentiments := [];
      for j := 0 to |reviews|
        invariant reviewSentiments == ReviewPolarities(reviews[..j])
      {
        assert reviews[..j + 1][..j] == reviews[..j];
        var content := reviews[j].content.GetOr("");
        if content != "" {
          reviewSentiments := reviewSentiments + [polarity(content)];
        }
      }
      assert reviews[..|reviews|] == reviews;
    }

    method SentimentBased(movies: seq<Movie>, minSentiment: real, n: int) returns (result: seq<(string, real, real)>)
      ensures result == SentimentResult(movies, minSentiment, n)
    {
      var movieSentiments: seq<(string, real, real)> := [];
      for i := 0 to |movies|
        invariant movieSentiments == SentimentRows(movies[..i], minSentiment)
      {
        assert movies[..i + 1][..i] == movies[..i];
        var movie := movies[i];
        var overview := movie.overview.GetOr("");
        var sentiment := if overview != "" then polarity(overview) else 0.0;
        if movie.reviews.Some? {
          var reviewSentiments := ReviewScores(Take(movie.reviews.value, 5));
          if reviewSentiments != [] {
            sentiment := (sentiment + Mean(reviewSentiments)) / 2.0;
          }
        }
        assert sentiment == MovieSentiment(movie);
        var voteAverage := movie.voteAverage.GetOr(0.0);
        if sentiment >= minSentiment {
          movieSentiments := movieSentiments + [(movie.title.GetOr("Unknown"), sentiment, voteAverage)];
        }
      }
      assert movies[..|movies|] == movies;
      movieSentiments := SortDesc(movieSentiments, SentimentKey);
      result := Take(movieSentiments, n);
    }

    // ------------------------------------------------------------ collaborative

    /** Every neighbour list the liked titles produce, one after the other. */
    function Contributions(liked: seq<string>, n: int): seq<(string, real)>
      reads this
      requires Valid()
    {
      if liked == [] then []
      else Contributions(liked[..|liked| - 1], n) + ContentBased(liked[|liked| - 1], n)
    }

    function CollaborativeResult(userRatings: seq<(string, real)>, n: int): seq<(string, real)>
      reads this
      requires Valid()
    {
      if userRatings == [] || Liked(userRatings) == [] then []
      else Take(SortDesc(MaxMergeAll(Contributions(Liked(userRatings), n), userRatings), ScoreKey), n)
    }

    /**
     * `collaborative_filtering_simple`: `[]` without ratings or without a rating of at least 4;
     * never a title the user rated; each title with the best score any liked seed gave it;
     * descending, at most `n`.
     */
    lemma CollaborativeEmpty(userRatings: seq<(string, real)>, n: int)
      requires Valid()
      requires forall k :: 0 <= k < |userRatings| ==> userRatings[k].1 < 4.0
      ensures CollaborativeResult(userRatings, n) == []
    {
      NoneLiked(userRatings);
    }

    lemma CollaborativeMember(userRatings: seq<(string, real)>, n: int, p: (string, real))
      requires Valid()
      requires p in CollaborativeResult(userRatings, n)
      ensures !HasKey(userRatings, p.0)
      ensures exists k :: 0 <= k < |Contributions(Liked(userRatings), n)| && Contributions(Liked(userRatings), n)[k] == p
      ensures forall k :: 0 <= k < |Contributions(Liked(userRatings), n)| && Contributions(Liked(userRatings), n)[k].0 == p.0 ==>
        Contributions(Liked(userRatings), n)[k].1 <= p.1
    {
      var offers := Contributions(Liked(userRatings), n);
      assert CollaborativeResult(userRatings, n) == Take(SortDesc(MaxMergeAll(offers, userRatings), ScoreKey), n);
      TopMergedMember(offers, userRatings, n, p);
    }

    lemma CollaborativeOrder(userRatings: seq<(string, real)>, n: int)
      requires Valid()
      ensures SortedDesc(CollaborativeResult(userRatings, n), ScoreKey)
      ensures n >= 0 ==> |CollaborativeResult(userRatings, n)| <= n
    {
      if userRatings != [] && Liked(userRatings) != [] {
        TakeSorted(SortDesc(MaxMergeAll(Contributions(Liked(userRatings), n), userRatings), ScoreKey), ScoreKey, n);
      }
    }

    lemma ContributionsStep(liked: seq<string>, i: int, n: int)
      requires Valid() && 0 <= i < |liked|
      ensures Contributions(liked[..i + 1], n) == Contributions(liked[..i], n) + ContentBased(liked[i], n)
    {
      assert liked[..i + 1][..i] == liked[..i];
    }

    /** `collaborative_filtering_simple(user_ratings, all_movies, n)`; `all_movies` is not used. */
    method CollaborativeFilteringSimple(userRatings: seq<(string, real)>, allMovies: seq<Movie>, n: int)
      returns (sortedRecs: seq<(string, real)>)
      requires Valid()
      ensures sortedRecs == CollaborativeResult(userRatings, n)
    {
      if userRatings == [] {
        return [];
      }
      var likedMovies := Liked(userRatings);
      if likedMovies == [] {
        return [];
      }
      var recommendations: seq<(string, real)> := [];
      for i := 0 to |likedMovies|
        invariant recommendations == MaxMergeAll(Contributions(likedMovies[..i], n), userRatings)
      {
        var similar := ContentBased(likedMovies[i], n);
        ContributionsStep(likedMovies, i, n);
        recommendations := MergeSimilar(recommendations, Contributions(likedMovies[..i], n), similar, userRatings);
      }
      assert likedMovies[..|likedMovies|] == likedMovies;
      sortedRecs := Take(SortDesc(recommendations, ScoreKey), n);
    }

    // ------------------------------------------------------------ hybrid

    function HybridContent(movieTitle: Option<string>, n: int): seq<(string, real)>
      reads this
      requires Valid()
    {
      if SeqTruthy(movieTitle) then ContentBased(movieTitle.value, n * 2) else []
    }

    function HybridCollaborative(userRatings: Option<seq<(string, real)>>, n: int): seq<(string, real)>
      reads this
      requires Valid()
    {
      if SeqTruthy(userRatings) then CollaborativeResult(userRatings.value, n * 2) else []
    }

    function HybridSentiment(allMovies: Option<seq<Movie>>, n: int): seq<(string, real, real)>
    {
      if SeqTruthy(allMovies) then SentimentResult(allMovies.value, 0.2, n * 2) else []
    }

    /** The content scores weighted 0.4, then the collaborative scores weighted 0.3. */
    function HybridBase(movieTitle: Option<string>, userRatings: Option<seq<(string, real)>>, n: int): seq<(string, real)>
      reads this
      requires Valid()
    {
      AddAll(AddAll([], HybridContent(movieTitle, n), ContentWeight), HybridCollaborative(userRatings, n), CollaborativeWeight)
    }

    /** The `recommendations` dictionary of `hybrid_recommendations` before it is sorted. */
    function HybridScores(movieTitle: Option<string>, userRatings: Option<seq<(string, real)>>,
                          allMovies: Option<seq<Movie>>, n: int): seq<(string, real)>
      reads this
      requires Valid()
    {
      Boost(HybridBase(movieTitle, userRatings, n), HybridSentiment(allMovies, n))
    }

    function HybridResult(movieTitle: Option<string>, userRatings: Option<seq<(string, real)>>,
                          allMovies: Option<seq<Movie>>, n: int): seq<(string, real)>
      reads this
      requires Valid()
    {
      Take(SortDesc(HybridScores(movieTitle, userRatings, allMovies, n), ScoreKey), n)
    }

    lemma HybridScoresDistinct(movieTitle: Option<string>, userRatings: Option<seq<(string, real)>>,
                               allMovies: Option<seq<Movie>>, n: int)
      requires Valid()
      ensures DistinctKeys(HybridScores(movieTitle, userRatings, allMovies, n))
    {
      var empty: seq<(string, real)> := [];
      var d := AddAll(empty, HybridContent(movieTitle, n), ContentWeight);
      AddAllSums(empty, HybridContent(movieTitle, n), ContentWeight, "");
      AddAllSums(d, HybridCollaborative(userRatings, n), CollaborativeWeight, "");
      BoostAt(HybridBase(movieTitle, userRatings, n), HybridSentiment(allMovies, n), "");
    }

    /**
     * The hybrid dictionary holds exactly the content and collaborative titles; each scores
     * 0.4 x its content score + 0.3 x its collaborative score + 0.3 x its sentiment, the
     * sentiment only reinforcing a title already present.
     */
    lemma HybridScoresAt(movieTitle: Option<string>, userRatings: Option<seq<(string, real)>>,
                         allMovies: Option<seq<Movie>>, n: int, t: string)
      requires Valid()
      ensures var content, collab := HybridContent(movieTitle, n), HybridCollaborative(userRatings, n);
        var d := HybridScores(movieTitle, userRatings, allMovies, n);
        (HasKey(d, t) <==> t in Keys(content) || t in Keys(collab))
        && Lookup(d, t).GetOr(0.0) ==
             0.4 * ScoreSum(content, t) + 0.3 * ScoreSum(collab, t)
             + (if t in Keys(content) || t in Keys(collab) then 0.3 * SentimentSum(HybridSentiment(allMovies, n), t) else 0.0)
    {
      var content, collab := HybridContent(movieTitle, n), HybridCollaborative(userRatings, n);
      var empty: seq<(string, real)> := [];
      assert !HasKey(empty, t);
      AddAllAt(empty, content, ContentWeight, t);
      var d := AddAll(empty, content, ContentWeight);
      AddAllAt(d, collab, CollaborativeWeight, t);
      BoostAt(HybridBase(movieTitle, userRatings, n), HybridSentiment(allMovies, n), t);
    }

    /** Neither a title nor ratings: the hybrid result is empty. The result is descending and at most `n` long. */
    lemma HybridResultSpec(movieTitle: Option<string>, userRatings: Option<seq<(string, real)>>,
                           allMovies: Option<seq<Movie>>, n: int)
      requires Valid()
      ensures !SeqTruthy(movieTitle) && !SeqTruthy(userRatings) ==> HybridResult(movieTitle, userRatings, allMovies, n) == []
      ensures SortedDesc(HybridResult(movieTitle, userRatings, allMovies, n), ScoreKey)
      ensures n >= 0 ==> |HybridResult(movieTitle, userRatings, allMovies, n)| <= n
    {
      TakeSorted(SortDesc(HybridScores(movieTitle, userRatings, allMovies, n), ScoreKey), ScoreKey, n);
      if !SeqTruthy(movieTitle) && !SeqTruthy(userRatings) {
        BoostAt([], HybridSentiment(allMovies, n), "");
      }
    }

    /** `hybrid_recommendations(movie_title, user_ratings, all_movies, n)` */
    method HybridRecommendations(movieTitle: Option<string>, userRatings: Option<seq<(string, real)>>,
                                 allMovies: Option<seq<Movie>>, n: int) returns (sortedRecs: seq<(string, real)>)
      requires Valid()
      ensures sortedRecs == HybridResult(movieTitle, userRatings, allMovies, n)
    {
      var recommendations: seq<(string, real)> := [];
      // Content-based recommendations
      var contentRecs: seq<(string, real)> := [];
      if SeqTruthy(movieTitle) {
        contentRecs := ContentBased(movieTitle.value, n * 2);
        recommendations := AddScores(recommendations, contentRecs, ContentWeight);
      }
      // Collaborative filtering
      var collabRecs: seq<(string, real)> := [];
      if SeqTruthy(userRatings) {
        collabRecs := CollaborativeFilteringSimple(userRatings.value, allMovies.GetOr([]), n * 2);
        recommendations := AddScores(recommendations, collabRecs, CollaborativeWeight);
      }
      // Sentiment-based boost
      var sentimentRecs: seq<(string, real, real)> := [];
      if SeqTruthy(allMovies) {
        sentimentRecs := SentimentBased(allMovies.value, 0.2, n * 2);
        recommendations := BoostScores(recommendations, sentimentRecs);
      }
      sortedRecs := Take(SortDesc(recommendations, ScoreKey), n);
    }
  }

  /** `[(title, score) for title, score in pairs if score >= threshold]` */
  function AtLeast(pairs: seq<(string, real)>, threshold: real): (r: seq<(string, real)>)
    ensures IsSubsequence(r, pairs)
    ensures forall p :: p in r <==> p in pairs && p.1 >= threshold
    ensures forall p :: multiset(r)[p] == if p.1 >= threshold then multiset(pairs)[p] else 0
  {
    if pairs == [] then []
    else
      var init, last := pairs[..|pairs| - 1], pairs[|pairs| - 1];
      var r := AtLeast(init, threshold);
      assert pairs == init + [last];
      assert multiset(pairs) == multiset(init) + multiset{last};
      if last.1 >= threshold then
        assert (r + [last])[..|r|] == r;
        r + [last]
      else
        SubsequenceExtend(r, init, last);
        r
  }
}
