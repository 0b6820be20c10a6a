/**
 * `analyze_movie_sentiment` (app.py): the polarity of a movie's overview and of up to five
 * of its reviews, blended into one score and a five-step label. TextBlob's polarity and
 * subjectivity are parameters; the blend is the code's own arithmetic around them.
 */
module SentimentAnalysis {
  import opened Wrappers
  import opened PyText
  import opened PySeq
  import opened Movies

  /** One entry of `results['review_sentiments']`. */
  datatype ReviewSentiment = ReviewSentiment(author: string, sentiment: real, excerpt: string)

  /** The `results` dictionary, one field per key. */
  datatype Analysis = Analysis(
    overviewSentiment: real,
    overviewSubjectivity: real,
    reviewSentiments: seq<ReviewSentiment>,
    avgReviewSentiment: real,
    overallSentiment: real,
    sentimentLabel: string)

  const VeryPositive := "Very Positive \U{1F60A}"
  const Positive := "Positive \U{1F642}"
  const Neutral := "Neutral \U{1F610}"
  const Negative := "Negative \U{1F615}"
  const VeryNegative := "Very Negative \U{1F61E}"

  /** A review's excerpt: the whole text up to 200 characters, else its first 200 and "...". */
  function Excerpt(content: string): (e: string)
    ensures |content| <= 200 ==> e == content
    ensures |content| > 200 ==> |e| == 203 && e[..200] == content[..200] && e[200..] == "..."
  {
    if |content| > 200 then content[..200] + "..." else content
  }

  /** The row of a review with content: its author, the polarity of its first 1000 characters, its excerpt. */
  function RowFor(polarity: string -> real, review: Review): ReviewSentiment
  {
    var content := review.content.GetOr("");
    ReviewSentiment(review.author.GetOr("Anonymous"), polarity(Prefix(content, 1000)), Excerpt(content))
  }

  /** What one review contributes: nothing when its content is empty or missing. */
  function RowOf(polarity: string -> real, review: Review): (row: seq<ReviewSentiment>)
    ensures |row| <= 1
    ensures row == [] <==> review.content.GetOr("") == ""
    ensures row != [] ==> row[0] == RowFor(polarity, review)
  {
    if review.content.GetOr("") != "" then [RowFor(polarity, review)] else []
  }

  /** The rows the review loop appends, in review order. */
  function ReviewRows(polarity: string -> real, reviews: seq<Review>): seq<ReviewSentiment>
  {
    if reviews == [] then [] else ReviewRows(polarity, reviews[..|reviews| - 1]) + RowOf(polarity, reviews[|reviews| - 1])
  }

  /** The positions of the reviews whose content is non-empty, in increasing order. */
  function ContentPositions(reviews: seq<Review>): (ps: seq<int>)
    ensures forall k :: 0 <= k < |ps| ==> 0 <= ps[k] < |reviews|
    ensures forall k, l :: 0 <= k < l < |ps| ==> ps[k] < ps[l]
    ensures forall j :: j in ps <==> 0 <= j < |reviews| && reviews[j].content.GetOr("") != ""
  {
    if reviews == [] then []
    else
      var init := ContentPositions(reviews[..|reviews| - 1]);
      assert forall j :: 0 <= j < |reviews| - 1 ==> reviews[..|reviews| - 1][j] == reviews[j];
      if reviews[|reviews| - 1].content.GetOr("") != "" then init + [|reviews| - 1] else init
  }

  /** The rows of the reviews at `positions`, in that order. */
  function RowsAt(polarity: string -> real, reviews: seq<Review>, positions: seq<int>): (rows: seq<ReviewSentiment>)
    requires forall k :: 0 <= k < |positions| ==> 0 <= positions[k] < |reviews|
    ensures |rows| == |positions|
    ensures forall k :: 0 <= k < |positions| ==> rows[k] == RowFor(polarity, reviews[positions[k]])
  {
    seq(|positions|, k requires 0 <= k < |positions| => RowFor(polarity, reviews[positions[k]]))
  }

  /** Positions inside a prefix pick the same rows from the prefix as from the whole list. */
  lemma RowsAtPrefix(polarity: string -> real, reviews: seq<Review>, n: int, positions: seq<int>)
    requires 0 <= n <= |reviews|
    requires forall k :: 0 <= k < |positions| ==> 0 <= positions[k] < n
    ensures RowsAt(polarity, reviews, positions) == RowsAt(polarity, reviews[..n], positions)
  {
    var a, b := RowsAt(polarity, reviews, positions), RowsAt(polarity, reviews[..n], positions);
    forall k | 0 <= k < |a|
      ensures a[k] == b[k]
    {
      assert reviews[..n][positions[k]] == reviews[positions[k]];
    }
  }

  /** One more position adds its row at the end. */
  lemma RowsAtSnoc(polarity: string -> real, reviews: seq<Review>, positions: seq<int>, j: int)
    requires forall k :: 0 <= k < |positions| ==> 0 <= positions[k] < |reviews|
    requires 0 <= j < |reviews|
    ensures RowsAt(polarity, reviews, positions + [j]) == RowsAt(polarity, reviews, positions) + [RowFor(polarity, reviews[j])]
  {
    var a, b := RowsAt(polarity, reviews, positions + [j]), RowsAt(polarity, reviews, positions) + [RowFor(polarity, reviews[j])];
    forall k | 0 <= k < |a|
      ensures a[k] == b[k]
    {
      assert (positions + [j])[k] == if k < |positions| then positions[k] else j;
    }
  }

  /** The rows are the rows of the reviews with content, one each, in review order. */
  lemma {:induction false} ReviewRowsPositions(polarity: string -> real, reviews: seq<Review>)
    ensures ReviewRows(polarity, reviews) == RowsAt(polarity, reviews, ContentPositions(reviews))
  {
    if reviews != [] {
      var n := |reviews| - 1;
      var init, last := reviews[..n], reviews[n];
      ReviewRowsPositions(polarity, init);
      var pinit := ContentPositions(init);
      RowsAtPrefix(polarity, reviews, n, pinit);
      if last.content.GetOr("") != "" {
        RowsAtSnoc(polarity, reviews, pinit, n);
      }
    }
  }

  /** Each review gives at most one row. */
  lemma {:induction false} ReviewRowsBound(polarity: string -> real, reviews: seq<Review>)
    ensures |ReviewRows(polarity, reviews)| <= |reviews|
  {
    if reviews != [] {
      ReviewRowsBound(polarity, reviews[..|reviews| - 1]);
    }
  }

  /** No row at all exactly when every review's content is empty or missing. */
  lemma ReviewRowsNone(polarity: string -> real, reviews: seq<Review>)
    ensures ReviewRows(polarity, reviews) == [] <==> forall j :: 0 <= j < |reviews| ==> reviews[j].content.GetOr("") == ""
  {
    ReviewRowsPositions(polarity, reviews);
    var ps := ContentPositions(reviews);
    if ps != [] {
      assert ps[0] in ps;
    }
  }

  /** Every review with content has its row. */
  lemma ReviewRowsComplete(polarity: string -> real, reviews: seq<Review>)
    ensures forall j :: 0 <= j < |reviews| && reviews[j].content.GetOr("") != "" ==>
              RowFor(polarity, reviews[j]) in ReviewRows(polarity, reviews)
  {
    ReviewRowsPositions(polarity, reviews);
    var ps := ContentPositions(reviews);
    forall j | 0 <= j < |reviews| && reviews[j].content.GetOr("") != ""
      ensures RowFor(polarity, reviews[j]) in ReviewRows(polarity, reviews)
    {
      var k :| 0 <= k < |ps| && ps[k] == j;
      assert ReviewRows(polarity, reviews)[k] == RowFor(polarity, reviews[j]);
    }
  }

  /**
   * There is one row per review with non-empty content and no other, in review order;
   * each row's sentiment is the polarity of the review's first 1000 characters.
   */
  lemma ReviewRowsSpec(polarity: string -> real, reviews: seq<Review>)
    ensures |ReviewRows(polarity, reviews)| <= |reviews|
    ensures ReviewRows(polarity, reviews) == [] <==> forall j :: 0 <= j < |reviews| ==> reviews[j].content.GetOr("") == ""
    ensures forall k :: 0 <= k < |ReviewRows(polarity, reviews)| ==>
              exists j :: 0 <= j < |reviews| && reviews[j].content.GetOr("") != ""
                          && ReviewRows(polarity, reviews)[k] == RowOf(polarity, reviews[j])[0]
    ensures ReviewRows(polarity, reviews) == RowsAt(polarity, reviews, ContentPositions(reviews))
  {
    ReviewRowsBound(polarity, reviews);
    ReviewRowsNone(polarity, reviews);
    ReviewRowsPositions(polarity, reviews);
    var ps := ContentPositions(reviews);
    forall k | 0 <= k < |ReviewRows(polarity, reviews)|
      ensures exists j :: 0 <= j < |reviews| && reviews[j].content.GetOr("") != ""
                          && ReviewRows(polarity, reviews)[k] == RowOf(polarity, reviews[j])[0]
    {
      assert ps[k] in ps;
    }
  }

  /** `[r['sentiment'] for r in rows]` */
  function Sentiments(rows: seq<ReviewSentiment>): (xs: seq<real>)
    ensures |xs| == |rows|
    ensures forall k :: 0 <= k < |rows| ==> xs[k] == rows[k].sentiment
  {
    seq(|rows|, k requires 0 <= k < |rows| => rows[k].sentiment)
  }

  /** `avg_review_sentiment`: the mean of the review sentiments, 0 when there are none. */
  function AverageSentiment(rows: seq<ReviewSentiment>): real
  {
    if rows == [] then 0.0 else Mean(Sentiments(rows))
  }

  /** `overall_sentiment`: the overview's score alone, or 0.3 of it and 0.7 of the review average. */
  function OverallSentiment(overviewSentiment: real, rows: seq<ReviewSentiment>): real
  {
    if rows == [] then overviewSentiment else overviewSentiment * 0.3 + AverageSentiment(rows) * 0.7
  }

  /** The average lies between the lowest and the highest review sentiment. */
  lemma AverageWithin(rows: seq<ReviewSentiment>, lo: real, hi: real)
    requires rows != []
    requires forall k :: 0 <= k < |rows| ==> lo <= rows[k].sentiment <= hi
    ensures lo <= AverageSentiment(rows) <= hi
  {
    MeanBounds(Sentiments(rows), lo, hi);
  }

  /** The overall score is a weighted average: it stays within any bounds its inputs respect. */
  lemma OverallWithin(overviewSentiment: real, rows: seq<ReviewSentiment>, lo: real, hi: real)
    requires lo <= overviewSentiment <= hi
    requires forall k :: 0 <= k < |rows| ==> lo <= rows[k].sentiment <= hi
    ensures lo <= OverallSentiment(overviewSentiment, rows) <= hi
  {
    if rows != [] {
      AverageWithin(rows, lo, hi);
    }
  }

  /** The label of a score: strict thresholds at 0.3, 0.1, -0.1 and -0.3, tried from the top. */
  function Label(score: real): (name: string)
    ensures name == VeryPositive <==> score > 0.3
    ensures name == Positive <==> 0.1 < score <= 0.3
    ensures name == Neutral <==> -0.1 < score <= 0.1
    ensures name == Negative <==> -0.3 < score <= -0.1
    ensures name == VeryNegative <==> score <= -0.3
  {
    if score > 0.3 then VeryPositive
    else if score > 0.1 then Positive
    else if score > -0.1 then Neutral
    else if score > -0.3 then Negative
    else VeryNegative
  }

  /** The position of a label on the scale, from 0 (very negative) to 4 (very positive). */
  function LabelRank(name: string): int
  {
    if name == VeryPositive then 4
    else if name == Positive then 3
    else if name == Neutral then 2
    else if name == Negative then 1
    else 0
  }

  /** A higher score never gets a lower label. */
  lemma LabelMonotone(a: real, b: real)
    requires a <= b
    ensures LabelRank(Label(a)) <= LabelRank(Label(b))
  {
  }

  /** The loop over `movie['reviews'][:5]`, appending one row per review with content. */
  method ReviewLoop(reviews: seq<Review>, polarity: string -> real) returns (reviewSentiments: seq<ReviewSentiment>)
    ensures reviewSentiments == ReviewRows(polarity, reviews)
  {
    reviewSentiments := [];
    for i := 0 to |reviews|
      invariant reviewSentiments == ReviewRows(polarity, reviews[..i])
    {
      assert reviews[..i + 1][..i] == reviews[..i];
      var review := reviews[i];
      var content := review.content.GetOr("");
      if content != "" {
        var sentiment := polarity(Prefix(content, 1000));
        reviewSentiments := reviewSentiments + [ReviewSentiment(review.author.GetOr("Anonymous"), sentiment, Excerpt(content))];
      }
    }
    assert reviews[..|reviews|] == reviews;
  }

  /**
   * `analyze_movie_sentiment(movie)`. `polarity` and `subjectivity` stand for TextBlob's
   * `sentiment.polarity` and `sentiment.subjectivity`.
   */
  method AnalyzeMovieSentiment(movie: Movie, polarity: string -> real, subjectivity: string -> real)
    returns (results: Analysis)
    ensures movie.overview.GetOr("") == "" ==> results.overviewSentiment == 0.0 && results.overviewSubjectivity == 0.0
    ensures movie.overview.GetOr("") != "" ==>
              results.overviewSentiment == polarity(movie.overview.value)
              && results.overviewSubjectivity == subjectivity(movie.overview.value)
    ensures results.reviewSentiments == if movie.reviews.Some? then ReviewRows(polarity, Take(movie.reviews.value, 5)) else []
    ensures results.avgReviewSentiment == AverageSentiment(results.reviewSentiments)
    ensures results.overallSentiment == OverallSentiment(results.overviewSentiment, results.reviewSentiments)
    ensures results.sentimentLabel == Label(results.overallSentiment)
  {
    var overviewSentiment, overviewSubjectivity := 0.0, 0.0;
    // Analyze overview
    var overview := movie.overview.GetOr("");
    if overview != "" {
      overviewSentiment := polarity(overview);
      overviewSubjectivity := subjectivity(overview);
    }
    // Analyze reviews if available
    var reviewSentiments: seq<ReviewSentiment> := [];
    var avgReviewSentiment := 0.0;
    if movie.reviews.Some? {
      reviewSentiments := ReviewLoop(Take(movie.reviews.value, 5), polarity);
      if reviewSentiments != [] {
        avgReviewSentiment := Mean(Sentiments(reviewSentiments));
      }
    }
    // Calculate overall sentiment
    var overallSentiment := overviewSentiment;
    if reviewSentiments != [] {
      overallSentiment := overviewSentiment * 0.3 + avgReviewSentiment * 0.7;
    }
    // Determine sentiment label
    var sentimentLabel: string;
    if overallSentiment > 0.3 {
      sentimentLabel := VeryPositive;
    } else if overallSentiment > 0.1 {
      sentimentLabel := Positive;
    } else if overallSentiment > -0.1 {
      sentimentLabel := Neutral;
    } else if overallSentiment > -0.3 {
      sentimentLabel := Negative;
    } else {
      sentimentLabel := VeryNegative;
    }
    results := Analysis(overviewSentiment, overviewSubjectivity, reviewSentiments, avgReviewSentiment, overallSentiment, sentimentLabel);
  }

  /** With polarities in [-1, 1], the overall score lies in [-1, 1] too. */
  lemma OverallBounds(movie: Movie, polarity: string -> real)
    requires forall s: string :: -1.0 <= polarity(s) <= 1.0
    ensures -1.0 <= OverallSentiment(if movie.overview.GetOr("") != "" then polarity(movie.overview.value) else 0.0,
                                     if movie.reviews.Some? then ReviewRows(polarity, Take(movie.reviews.value, 5)) else []) <= 1.0
  {
    var rows := if movie.reviews.Some? then ReviewRows(polarity, Take(movie.reviews.value, 5)) else [];
    if movie.reviews.Some? {
      ReviewRowsSpec(polarity, Take(movie.reviews.value, 5));
    }
    OverallWithin(if movie.overview.GetOr("") != "" then polarity(movie.overview.value) else 0.0, rows, -1.0, 1.0);
  }
}
