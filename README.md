# Movie recommendation core, modelled in Dafny

This project models the core of a movie recommendation application and proves
properties of the model. It covers six parts:

- the `RecommendationEngine`: feature strings, content-based ranking, sentiment
  ranking, a simple collaborative filter, the hybrid combiner and `find_similar_movies`;
- the `MovieFilters` attribute filters and their `apply_filters` chain;
- the `WatchlistManager`;
- the query parser and the response writer of the `NLPInterface`;
- `MovieComparison.get_similarities`;
- the per-movie sentiment report `analyze_movie_sentiment`.

Movies are metadata dictionaries. Each key the code reads is an `Option` field of
`Movies.Movie`, where `None` means the key is missing. Python behaviour the code
relies on is written out in small support modules:

- `Wrappers`: truthiness of `None`, `0`, `0.0` and empty lists.
- `PyText`: ASCII `lower()`, `split()`, `join`, `in` on strings, and `int()`.
- `PySeq`: slices with negative bounds and the stable `sorted(..., reverse=True)`.
- `PyDict`: insertion-ordered dictionaries as association lists. Their order decides
  ties after a stable sort.

The foreign numerics are parameters or constants of the engine object: TF-IDF and
cosine similarity, numpy's `argsort`, and TextBlob's polarity and subjectivity. The
guarantees the code relies on are stated as predicates:

- the similarity table is square;
- `argsort` is an ascending permutation;
- polarity lies in [-1, 1].

Code that mutates state is modelled as a class:

- `WatchlistManager` has `seq` fields, `modifies` clauses on its methods and a `Valid`
  invariant: ids are distinct and rating keys are distinct.
- `RecommendationEngine` has its three `Option` fields, set together by `PrepareData`.

Loops become `method`s with loop invariants. Each such method is proved equal to a
specification function. The properties the code promises are lemmas about those
functions.

## Model

| member | source | states |
|---|---|---|
| Recommendation.FeatureStrings | recommendation_engine.py:49-51 | one combined feature string per movie row |
| Recommendation.FeaturePartsOccur | recommendation_engine.py:63-92 | every genre name, the overview, every keyword, the first five cast names and the director occur, lower-cased, in the combined feature string |
| Recommendation.FeatureStringIsLower | recommendation_engine.py:92 | the combined feature string contains no upper-case ASCII letter |
| Recommendation.FeatureStringIgnores | recommendation_engine.py:84-86 | the title never enters the feature string, and cast members after the fifth do not change it |
| Recommendation.FrameNanFeature | recommendation_engine.py:46-51 | as written: inside a pandas frame, a movie without `genres` gets the word "nan" as its features once another movie has that column, while the movie alone gives "" |
| Recommendation.FrameFeatureAgrees | recommendation_engine.py:63-92 | whenever the movie has every column the frame has, the per-row feature string equals the one computed from the movie alone |
| Recommendation.FrameFeaturesAgree | recommendation_engine.py:46-89 | when every movie has genres or none has, and every movie has a director or none has, the frame rows' feature strings equal the movies' own |
| Recommendation.FirstTitleMatch | recommendation_engine.py:107-112 | the seed row is the first row whose title equals the query case-insensitively; None exactly when no row matches |
| Recommendation.RecommendationEngine.constructor | recommendation_engine.py:34-38 | a new engine holds no frame, vectorizer or matrix |
| Recommendation.RecommendationEngine.CombineFeatures | recommendation_engine.py:63-92 | the loop-built feature string equals the specification function FeatureString |
| Recommendation.RecommendationEngine.PrepareData | recommendation_engine.py:40-61 | an empty list changes nothing; otherwise the frame, the vectorizer's documents and the similarity matrix are all set from the same feature strings |
| Recommendation.RecommendationEngine.CombineAllFeatures | recommendation_engine.py:49-51 | the applied column holds the feature string of each movie, in frame order |
| Recommendation.RecommendationEngine.Ranked | recommendation_engine.py:121 | `argsort()[::-1]` is a permutation of the row's positions in non-increasing score order |
| Recommendation.RecommendationEngine.ContentBased | recommendation_engine.py:94-128 | empty before preparation and for an unknown title; at most n results, fewer results than movies, scores non-increasing |
| Recommendation.RecommendationEngine.ContentBasedRows | recommendation_engine.py:115-126 | each result is the title and similarity of a distinct row, and the first position of the descending order is never among them |
| Recommendation.RecommendationEngine.FindSimilarMovies | recommendation_engine.py:267-275 | the results are the content-based results scoring at least the threshold, in the same order |
| Recommendation.AtLeast | recommendation_engine.py:275 | an order-preserving sub-list holding exactly the pairs whose score reaches the threshold, each as many times as it occurs in the input |
| Recommendation.RecommendationEngine.ReviewPolaritiesBounds | recommendation_engine.py:152-159 | every review polarity lies in [-1, 1] |
| Recommendation.RecommendationEngine.MovieSentimentBounds | recommendation_engine.py:142-162 | a movie's sentiment, the overview averaged with the review mean, lies in [-1, 1] |
| Recommendation.RecommendationEngine.SentimentRowsSpec | recommendation_engine.py:142-171 | a row is kept exactly when its sentiment reaches the minimum, and carries that movie's title ("Unknown" if missing), sentiment and rating |
| Recommendation.RecommendationEngine.SentimentResultSpec | recommendation_engine.py:173-176 | the result is sorted by (sentiment, rating) descending, holds at most n rows, each above the minimum, and is a permutation of all rows when n covers them |
| Recommendation.RecommendationEngine.SentimentBased | recommendation_engine.py:130-176 | the loop builds exactly SentimentResult |
| Recommendation.RecommendationEngine.ReviewScores | recommendation_engine.py:154-159 | the list holds the polarity of each review with content, in review order, and nothing else |
| Recommendation.Liked | recommendation_engine.py:192 | the liked titles are exactly those rated at least 4 |
| Recommendation.MaxMergeAt | recommendation_engine.py:202-207 | merging one candidate skips rated titles, inserts a new title and keeps the maximum for a known one, leaving every other key alone |
| Recommendation.MaxMergeAllAt | recommendation_engine.py:198-207 | a title is in the merged dictionary exactly when it was offered and is not rated, and its value is the largest score offered for it |
| Recommendation.TopMergedMember | recommendation_engine.py:209-214 | every collaborative result is unrated and carries the top score offered for its title |
| Recommendation.RecommendationEngine.CollaborativeEmpty | recommendation_engine.py:188-195 | with no rating of 4 or more, including no ratings at all, the result is empty |
| Recommendation.RecommendationEngine.CollaborativeMember | recommendation_engine.py:198-214 | a result's title is not rated by the user, and its score is the maximum similarity contributed for that title |
| Recommendation.RecommendationEngine.CollaborativeOrder | recommendation_engine.py:209-216 | the collaborative result is sorted by score descending and holds at most n entries |
| Recommendation.RecommendationEngine.CollaborativeFilteringSimple | recommendation_engine.py:178-216 | the nested loops build exactly CollaborativeResult |
| Recommendation.MergeSimilar | recommendation_engine.py:202-207 | after one seed's similar titles, the dictionary is the max-merge of all offers so far, skipping rated titles |
| Recommendation.WeightedSumScales | recommendation_engine.py:234 | adding `score * w` over a list adds w times the list's score sum |
| Recommendation.AddOneAt | recommendation_engine.py:234 | `d[t] = d.get(t, 0) + score * w` adds the weighted score at t only and keeps keys distinct |
| Recommendation.AddAllSums | recommendation_engine.py:233-234 | after a pass, each title's value is its old value plus the weighted sum of its scores |
| Recommendation.AddAllAt | recommendation_engine.py:243-244 | the same, stated as the weight factor times the plain score sum |
| Recommendation.BoostOneAt | recommendation_engine.py:253-256 | a sentiment row adds 0.3 times its sentiment only to a title already present, and never adds a key |
| Recommendation.BoostAt | recommendation_engine.py:253-256 | the sentiment pass adds 0.3 times the summed sentiments to present titles and leaves the key list unchanged |
| Recommendation.AddScores | recommendation_engine.py:233-234 | the accumulation loop computes AddAll |
| Recommendation.BoostScores | recommendation_engine.py:253-256 | the boost loop computes Boost |
| Recommendation.RecommendationEngine.HybridScoresDistinct | recommendation_engine.py:228-256 | the hybrid accumulator never holds a title twice |
| Recommendation.RecommendationEngine.HybridScoresAt | recommendation_engine.py:228-256 | a title is scored exactly when content or collaborative results hold it; its score is 0.4 × its summed content scores + 0.3 × its summed collaborative scores + 0.3 × its summed sentiments from the top 2n sentiment rows |
| Recommendation.RecommendationEngine.HybridResultSpec | recommendation_engine.py:258-265 | without a seed title and without ratings the result is empty; it is sorted descending and holds at most n entries |
| Recommendation.RecommendationEngine.HybridRecommendations | recommendation_engine.py:218-265 | the method computes HybridResult |
| PySeq.SortDesc | recommendation_engine.py:210-214 | `sorted(..., reverse=True)` gives a non-increasing permutation of its input |
| PySeq.Take | recommendation_engine.py:176 | `s[:n]` is a prefix of length min(n, len) |
| PyDict.PutSpec | enhanced_features.py:187 | `d[k] = v` leaves other keys and values alone, keeps keys distinct and appends a new key last |
| MovieFilters.SelectSpec | movie_filters.py:18-31 | a filter's result is an order-preserving sub-list holding exactly the input movies it accepts |
| MovieFilters.SelectCounts | movie_filters.py:18-31 | an accepted movie occurs in the result as many times as in the input; a rejected one not at all |
| MovieFilters.FilterByYear | movie_filters.py:12-31 | keeps movies with a parsable year within the truthy bounds; a missing, empty or unparsable date drops the movie |
| MovieFilters.FilterByDecade | movie_filters.py:34-40 | the same as the year filter from decade to decade + 9 |
| MovieFilters.DecadeSpan | movie_filters.py:24-27 | a decade keeps movies whose year is within [decade, decade + 9], except that decade 0 leaves the lower bound unchecked and -9 the upper |
| MovieFilters.FilterByRating | movie_filters.py:43-57 | keeps movies whose rating (0 when missing) respects the truthy bounds |
| MovieFilters.FilterByVoteCount | movie_filters.py:60-71 | keeps movies whose vote count (0 when missing) reaches a truthy minimum |
| MovieFilters.FilterByRuntime | movie_filters.py:74-90 | drops movies without runtime, keeps the rest within the truthy bounds |
| MovieFilters.RuntimeDropsUntimed | movie_filters.py:82-84 | no movie with a missing or zero runtime survives the runtime filter |
| MovieFilters.FilterByLanguage | movie_filters.py:93-106 | an empty language list returns the input; otherwise keeps movies whose language is listed |
| MovieFilters.FilterByGenres | movie_filters.py:109-144 | returns the input when no criterion is given, raises when ids are given and a movie's genre list is empty, else keeps the id or name matches |
| MovieFilters.AnyGenreIndexErrorSpec | movie_filters.py:120-127 | the genre filter raises exactly when some movie has an empty genre list while ids are given |
| MovieFilters.AnyNameIn | movie_filters.py:162-165 | the early-exit cast loop answers true exactly when some cast name, lower-cased, is wanted |
| MovieFilters.FilterByCast | movie_filters.py:147-174 | an empty actor list returns the input; credits, when present, decide alone, else the flat cast list |
| MovieFilters.AnyDirectorNamed | movie_filters.py:192-196 | the early-exit crew loop answers true exactly when a crew member with job "Director" has the wanted name |
| MovieFilters.FilterByDirector | movie_filters.py:177-202 | an empty name returns the input; credits, when present, decide alone, else the `director` field |
| MovieFilters.FilterByPopularity | movie_filters.py:205-218 | a falsy minimum returns the input; otherwise keeps popularity at least the minimum |
| MovieFilters.TemporalFilters | movie_filters.py:228-240 | the year and decade calls are made exactly when their keys are present |
| MovieFilters.QualityFilters | movie_filters.py:242-254 | the rating and vote calls are made exactly when their keys are present |
| MovieFilters.ContentFilters | movie_filters.py:256-268 | the runtime and language calls are made exactly when their keys are present |
| MovieFilters.GenreFilter | movie_filters.py:270-276 | the genre call is made exactly when one of its keys is present |
| MovieFilters.PersonnelFilters | movie_filters.py:278-289 | the cast and director calls are made exactly when their keys are present |
| MovieFilters.PopularityFilter | movie_filters.py:291-296 | the popularity call is made exactly when its key is present |
| MovieFilters.ApplyFilters | movie_filters.py:221-298 | the chain equals applying the present filters in the source's order; an empty filter dict returns the input |
| MovieFilters.PipelineAppend | movie_filters.py:226-298 | applying two groups of calls is applying the first, then the second on its result, unless the first raised |
| MovieFilters.PipelineSound | movie_filters.py:221-298 | a chain that does not raise returns a sub-list of its input whose every movie passes every applied filter |
| MovieFilters.PipelineFixes | movie_filters.py:221-298 | a list whose movies all pass every filter comes back unchanged |
| MovieFilters.PipelineIdempotent | movie_filters.py:221-298 | applying the same filters to their own result changes nothing |
| MovieFilters.DecadeNoneRaises | movie_filters.py:236-240 | a `decade` key holding None makes `apply_filters` raise |
| MovieFilters.SampleFilters | test_functionality.py:63-75 | on the two sample movies, min year 2018 and min rating 8.0 keep the second, max runtime 130 keeps the first |
| MovieFilters.SampleYears | test_functionality.py:43-60 | the sample movies' years are 2015 and 2020, ratings 7.5 and 8.2, runtimes 120 and 150 |
| Watchlist.WithoutId | enhanced_features.py:178 | the remaining list is an order-preserving sub-list holding exactly the movies with another id |
| Watchlist.WithoutIdCounts | enhanced_features.py:178 | a movie with another id is kept as many times as it occurs; a movie with that id not at all |
| Watchlist.WithoutIdDistinct | enhanced_features.py:176-178 | removing movies keeps ids distinct |
| Watchlist.FirstWithId | enhanced_features.py:182 | the first movie with that id, None exactly when there is none |
| Watchlist.WatchlistManager.constructor | enhanced_features.py:163-166 | all three collections start empty |
| Watchlist.WatchlistManager.AddToWatchlist | enhanced_features.py:168-174 | appends and answers true exactly when no listed movie has that id; otherwise nothing changes |
| Watchlist.WatchlistManager.RemoveFromWatchlist | enhanced_features.py:176-178 | the watchlist loses exactly the movies with that id; the other fields are unchanged |
| Watchlist.WatchlistManager.MarkAsWatched | enhanced_features.py:180-187 | an unlisted id changes nothing; otherwise the first such movie moves to watched, and a truthy rating is stored under its title |
| Watchlist.WatchlistManager.GetWatchlist | enhanced_features.py:189-191 | returns the watchlist, whose ids are distinct |
| Watchlist.WatchlistManager.GetWatched | enhanced_features.py:193-195 | returns the watched list |
| Watchlist.WatchlistManager.GetRatings | enhanced_features.py:197-199 | returns the ratings, whose keys are distinct |
| Watchlist.WatchlistWalkthrough | test_functionality.py:136-159 | adding the same movie twice lists it once; marking it watched with 8.5 gives one watched movie and the rating 8.5 under its title |
| NlpInterface.FirstYearAt | enhanced_features.py:71 | the first position at or after `from` where the year pattern matches, or None when there is none |
| NlpInterface.FindYear | enhanced_features.py:71-73 | a year is found exactly when `\b(19\|20)\d{2}\b` matches; it is the first match's value, within 1900-2099 |
| NlpInterface.PrefixedWord | enhanced_features.py:77-78 | a match of "nineteen eighties" implies a match of "eighties" |
| NlpInterface.DecadeMatchesWord | enhanced_features.py:76-82 | a decade pattern matches exactly when one of its alternatives matches as a whole word; the optional prefix adds nothing |
| NlpInterface.FirstDecade | enhanced_features.py:83-86 | the decade of the first matching pattern; None exactly when none matches |
| NlpInterface.TwentyTens | enhanced_features.py:71-86 | "2010s" yields no year but the decade 2010 |
| NlpInterface.MentionedSpec | enhanced_features.py:102-105 | the detected genres keep table order and are exactly those with a keyword occurring in the query |
| NlpInterface.MentionedMember | enhanced_features.py:102-105 | a genre is detected exactly when one of its keywords occurs in the query |
| NlpInterface.TitleKeywordsSpec | enhanced_features.py:128-129 | the keywords keep query order and are exactly the words that are not stop words and longer than two characters |
| NlpInterface.TitleKeywordsMember | enhanced_features.py:128-129 | a word is a keyword exactly when it occurs in the query, is not a stop word and is longer than two characters |
| NlpInterface.MinRating | enhanced_features.py:111-114 | 7.0 exactly when a top-rated phrase occurs, else 6.0 exactly when a quality word occurs, else nothing |
| NlpInterface.KeywordsParam | enhanced_features.py:126-131 | no keywords parameter exactly when no word survives the word test |
| NlpInterface.QuerySpec | enhanced_features.py:65-133 | any year is within 1900-2099, any minimum rating is 7.0 or 6.0, any genre list is non-empty, and the sentiment is the query's polarity |
| NlpInterface.DetectDecade | enhanced_features.py:83-86 | the break-on-first-match loop returns FirstDecade |
| NlpInterface.DetectGenres | enhanced_features.py:102-105 | the genre loop returns the mentioned genres |
| NlpInterface.ParseQuery | enhanced_features.py:65-133 | the parameters built step by step equal QuerySpec |
| NlpInterface.IntText | enhanced_features.py:150 | an integer's text is non-empty and starts with a digit or a minus sign |
| NlpInterface.FoundPlural | enhanced_features.py:144 | the opening says "movie" for a count of 1 and "movies" otherwise |
| NlpInterface.DecadeTextUnique | enhanced_features.py:150-152 | the decade phrase's text comes from no other phrase and no other decade |
| NlpInterface.ResponsePhrases | enhanced_features.py:144-155 | every phrase of the response can be rendered |
| NlpInterface.ResponsePhrasesSpec | enhanced_features.py:144-155 | the opening comes first; genres appear exactly when detected; the year phrase appears exactly for a year, the decade phrase exactly for a decade without a year; the rating phrase is last exactly when a minimum rating was found |
| NlpInterface.DecadeInResponse | enhanced_features.py:149-152 | the decade text occurs among the response parts exactly when no year but that decade was found |
| NlpInterface.Response | enhanced_features.py:157 | the response ends with "!" |
| NlpInterface.BuildResponse | enhanced_features.py:141-157 | the appended parts, joined, equal Response |
| NlpInterface.GenerateResponse | enhanced_features.py:136-157 | an empty movie list gives the apology; otherwise the response for the count and the parsed query |
| MovieComparison.GenreNames | enhanced_features.py:437-446 | a name is in the set exactly when some genre entry of the movie carries it |
| MovieComparison.YearDifference | enhanced_features.py:455-462 | non-negative; the distance between the two parsed four-character prefixes when both are non-empty and parse, and 0 when either fails to parse |
| MovieComparison.SimilaritiesOf | enhanced_features.py:427-464 | shared genres are exactly the names both movies carry, shared cast is empty, the rating difference is \|a - b\| (a missing rating counts as 0), and the year difference is YearDifference |
| MovieComparison.GetSimilarities | enhanced_features.py:427-464 | the set-building loops compute SimilaritiesOf |
| MovieComparison.SimilaritiesSymmetric | enhanced_features.py:427-464 | swapping the two movies changes nothing |
| MovieComparison.SimilaritiesReflexive | enhanced_features.py:427-464 | a movie compared with itself shares all its genre names and differs by 0 in rating and year |
| MovieComparison.ComparisonExample | test_functionality.py:168-199 | the two sample movies share exactly "Action", differ by 0.5 in rating and by 1 in year |
| SentimentAnalysis.Excerpt | app.py:171 | up to 200 characters the whole content; beyond that its first 200 characters followed by "..." |
| SentimentAnalysis.ContentPositions | app.py:167 | the positions of the reviews with non-empty content, strictly increasing, holding exactly those positions |
| SentimentAnalysis.ReviewRowsPositions | app.py:163-172 | the rows are the rows of the reviews with content, one per such review, in review order |
| SentimentAnalysis.ReviewRowsComplete | app.py:163-172 | every review with content contributes its row |
| SentimentAnalysis.ReviewRowsSpec | app.py:161-172 | at most one row per review; no rows exactly when every content is empty; each row comes from a non-empty review; and the rows are exactly those of the reviews with content, in review order |
| SentimentAnalysis.ReviewRowsNone | app.py:163-172 | no row at all exactly when every review's content is empty or missing |
| SentimentAnalysis.AverageWithin | app.py:174-177 | the average review sentiment lies between the lowest and highest review sentiment |
| SentimentAnalysis.OverallWithin | app.py:179-186 | the overall score stays within any bounds that the overview and the reviews respect |
| SentimentAnalysis.Label | app.py:188-198 | each of the five labels is given exactly on its half-open score interval |
| SentimentAnalysis.LabelMonotone | app.py:188-198 | a higher score never gets a lower label |
| SentimentAnalysis.AnalyzeMovieSentiment | app.py:140-200 | overview scores are 0 without an overview; the review rows come from the first five reviews; average, overall score and label follow the specification functions |
| SentimentAnalysis.ReviewLoop | app.py:163-172 | the appended rows are exactly ReviewRows of the first five reviews |
| SentimentAnalysis.OverallBounds | app.py:144-186 | with polarities in [-1, 1] the overall score lies in [-1, 1] |

## Left out

- TF-IDF, cosine similarity and `argsort` are engine constants. So are TextBlob's
  polarity and subjectivity, and they are parameters elsewhere. These are foreign
  numerics; only the guarantees the code relies on are stated.
- Floating point: scores, ratings and weights are unbounded reals. No rounding is modelled.
- The vectorizer's empty-vocabulary `ValueError` in `prepare_data` is not modelled. It
  would leave the frame set and the matrix unset. The similarity oracle is total here.
- `self.stop_words` in the constructor is not modelled, because it is never read by
  the core. The nltk download is I/O.
- Recommendation.RecommendationEngine.PrepareData: the engine stores the per-movie
  feature strings (FeatureStrings), the corrected definition of the finding below. It
  does not store the frame rows' strings, where a key that only some movies have adds
  "nan" (FrameFeatureStrings). FrameFeaturesAgree states when the two are equal.
- Recommendation.RecommendationEngine.CombineAllFeatures: returns the per-movie feature
  strings, not the frame rows' strings; see the line above.
- Recommendation.RecommendationEngine.ContentBased: when no movie has a `title` key, the
  frame has no `title` column. The code then raises a `KeyError` that `except IndexError`
  does not catch (recommendation_engine.py:108-112). The model finds no match and returns
  the empty list. A movie without a title while others have one is NaN in the column,
  and NaN never equals the query; the model matches that. Such a row is reported with
  the title "".
- Recommendation.RecommendationEngine.ContentBased: the order among equal similarities
  is whatever `argsort` gives. Any ascending permutation is allowed.
- `_combine_features` does not model genres or keywords that are neither a list nor
  missing. The frame-level NaN case is modelled, see Findings.
- Text is ASCII only:
  - `lower()`, `\w`, `\d` and whitespace are ASCII. Python's Unicode case mapping and
    Unicode digits are left out.
  - Strings are `seq<char>`, with no normalisation.
- A JSON `null` value is not told apart from a missing key. For example, `None` as a
  director is not modelled, where the code would raise on `.lower()`.
- Cast entries are their names. Dict entries without a `name`, and the `KeyError` on
  credit entries without one, are not modelled.
- A `reviews` value that is not a dict with `results` is modelled as no reviews. This
  is the branch the code skips.
- get_similarities does not model genre entries that are not dicts. The code skips them.
- MovieComparison.GetSimilarities: `shared_genres` is a set. The code returns it as a
  list in Python's set iteration order, which is not modelled.
- NlpInterface.ParseQuery: the parameter dictionary is a record. The key order of the
  dict is not modelled; `generate_response` does not depend on it.
- NlpInterface.RatingText: renders only 7.0 and 6.0. These are the only values
  `parse_query` produces, so general float `str()` is left out.
- Watchlist.WatchlistManager.MarkAsWatched: the id is an integer. A `None` id would
  match movies without an `id` key, possibly the falsy empty dict. That is not modelled.
- Watchlist.WatchlistManager.GetWatchlist: the getters return values. The aliasing of
  the returned Python lists with the manager's fields is not modelled.
- UI code, the HTTP client, charts and `compare_movies` are left out. They use
  streamlit, plotly and pandas DataFrames, which are not part of this model.

Notes on the code's own behaviour, as modelled:

- Title lookup is a case-insensitive exact match (recommendation_engine.py:107-112).
  The code has no fuzzy title resolution and no keyword fallback, though a reader
  might expect a recommender to offer them.
- The seed is excluded by dropping the first position of the descending order
  (recommendation_engine.py:121). With ties at the top, that may be a different movie.
- Counts below 1 are Python slices (`[1:n+1]`, `[:n]`). A negative `n` can therefore
  give a non-empty result.
- The corpus sentiment ranking averages the overview polarity with the review mean
  (`(s + mean) / 2`, recommendation_engine.py:162). It scores whole reviews, not
  0.3/0.7 of reviews cut at 1000 characters.

## Findings

| source | as written | input that shows it | evidently intended | confidence | as-written member | corrected member |
|---|---|---|---|---|---|---|
| recommendation_engine.py:46-51, 68-72 | `_combine_features` runs on rows of `pd.DataFrame(movies)`. A movie without a `genres` key reads NaN there once another movie has the column. NaN is truthy and not a list, so the word "nan" becomes a feature. The same happens for `director`. | `[{}, {'genres': []}]`: the first movie's features are "nan" rather than "" | a missing key contributes nothing, as for the movie dictionary alone | not executed | Recommendation.FrameNanFeature | Recommendation.FrameFeatureAgrees |
