/**
 * `NLPInterface` (enhanced_features.py): a rule table that reads search parameters out of
 * a free-text query, and the sentence that reports what was found. The regular
 * expressions the rules use are modelled by what they match: `\b` is a change between a
 * word character and a non-word character (or an end of the text).
 */
module NlpInterface {
  import opened Wrappers
  import opened PyText
  import opened PySeq
  import opened Movies

  // ---------------------------------------------------------------- regular expressions

  /** `\w`, for ASCII: letters, digits and the underscore. */
  predicate IsWordChar(c: char) {
    'a' <= c <= 'z' || 'A' <= c <= 'Z' || IsDigit(c) || c == '_'
  }

  /** `\b` at position `i`: exactly one of the two neighbouring characters is a word character. */
  predicate Boundary(s: string, i: int)
    requires 0 <= i <= |s|
  {
    (i > 0 && IsWordChar(s[i - 1])) != (i < |s| && IsWordChar(s[i]))
  }

  /** `\bw\b` matches at position `i`. */
  predicate WordAt(s: string, w: string, i: int) {
    OccursAt(s, w, i) && Boundary(s, i) && Boundary(s, i + |w|)
  }

  /** `re.search(r'\bw\b', s)` finds a match. */
  predicate HasWord(s: string, w: string) {
    exists i | 0 <= i <= |s| :: WordAt(s, w, i)
  }

  /** `\b(19|20)\d{2}\b` matches at position `i`. */
  predicate YearAt(s: string, i: int) {
    0 <= i && i + 4 <= |s| && ((s[i] == '1' && s[i + 1] == '9') || (s[i] == '2' && s[i + 1] == '0'))
    && IsDigit(s[i + 2]) && IsDigit(s[i + 3])
    && Boundary(s, i) && Boundary(s, i + 4)
  }

  /** The leftmost year match at or after `from`, as `re.search` scans. */
  function FirstYearAt(s: string, from: nat): (r: Option<nat>)
    ensures r.None? ==> forall j :: from <= j ==> !YearAt(s, j)
    ensures r.Some? ==> from <= r.value && YearAt(s, r.value) && forall j :: from <= j < r.value ==> !YearAt(s, j)
    decreases |s| - from
  {
    if from + 4 > |s| then None
    else if YearAt(s, from) then Some(from)
    else FirstYearAt(s, from + 1)
  }

  /**
   * `int(re.search(r'\b(19|20)\d{2}\b', query).group())`: the first standalone 19xx or 20xx
   * token, or `None` when there is none.
   */
  function FindYear(s: string): (r: Option<int>)
    ensures r.Some? <==> exists i :: YearAt(s, i)
    ensures r.Some? ==> exists i :: YearAt(s, i) && (forall j :: 0 <= j < i ==> !YearAt(s, j)) && r == ParseInt(s[i..i + 4])
    ensures r.Some? ==> 1900 <= r.value <= 2099
  {
    match FirstYearAt(s, 0)
    case None => None
    case Some(i) =>
      var t := s[i..i + 4];
      assert t[0] == s[i] && t[1] == s[i + 1] && t[2] == s[i + 2] && t[3] == s[i + 3];
      ParseFourDigits(t);
      ParseInt(t)
  }

  /**
   * One row of the decade table: `\b(prefix)?(w1|w2)\b`, with the decade it stands for.
   */
  datatype DecadePattern = DecadePattern(prefix: Option<string>, words: seq<string>, decade: int)

  const DecadePatterns: seq<DecadePattern> := [
    DecadePattern(Some("nineteen "), ["eighties", "80s"], 1980),
    DecadePattern(Some("nineteen "), ["nineties", "90s"], 1990),
    DecadePattern(None, ["two thousand", "2000s"], 2000),
    DecadePattern(None, ["twenty tens", "2010s"], 2010),
    DecadePattern(None, ["twenty twenties", "2020s"], 2020)
  ]

  /** `re.search(pattern, s)` for a decade row. */
  predicate Matches(s: string, p: DecadePattern) {
    exists k | 0 <= k < |p.words| :: HasWord(s, p.words[k]) || (p.prefix.Some? && HasWord(s, p.prefix.value + p.words[k]))
  }

  /**
   * A prefix that ends in a non-word character never decides whether the row matches:
   * wherever `prefix + w` matches, `w` matches on its own.
   */
  lemma PrefixedWord(s: string, prefix: string, w: string)
    requires |prefix| > 0 && !IsWordChar(prefix[|prefix| - 1])
    requires |w| > 0 && IsWordChar(w[0])
    requires HasWord(s, prefix + w)
    ensures HasWord(s, w)
  {
    var i :| 0 <= i <= |s| && WordAt(s, prefix + w, i);
    var j := i + |prefix|;
    OccursSuffix(s, prefix, w, i);
    assert Boundary(s, j);
    assert j + |w| == i + |prefix + w|;
    assert WordAt(s, w, j);
  }

  /** Where `a + b` occurs, `b` occurs right after `a`, and the character before it ends `a`. */
  lemma OccursSuffix(s: string, a: string, b: string, i: int)
    requires |a| > 0 && |b| > 0
    requires OccursAt(s, a + b, i)
    ensures OccursAt(s, b, i + |a|)
    ensures s[i + |a| - 1] == a[|a| - 1] && s[i + |a|] == b[0]
  {
    var j := i + |a|;
    var found := s[i..i + |a + b|];
    forall k | 0 <= k < |b|
      ensures s[j + k] == b[k]
    {
      assert found[|a| + k] == (a + b)[|a| + k];
    }
    assert s[j..j + |b|] == b;
    assert found[|a| - 1] == (a + b)[|a| - 1];
  }

  /** For every row of the decade table the optional prefix is redundant. */
  lemma DecadeMatchesWord(s: string, n: nat)
    requires n < |DecadePatterns|
    ensures Matches(s, DecadePatterns[n]) <==> exists k | 0 <= k < |DecadePatterns[n].words| :: HasWord(s, DecadePatterns[n].words[k])
  {
    var p := DecadePatterns[n];
    if p.prefix.Some? {
      forall k | 0 <= k < |p.words| && HasWord(s, p.prefix.value + p.words[k])
        ensures HasWord(s, p.words[k])
      {
        PrefixedWord(s, p.prefix.value, p.words[k]);
      }
    }
  }

  /** The decade of the first row, in table order, that matches. */
  function FirstDecade(s: string, patterns: seq<DecadePattern>): (r: Option<int>)
    ensures r.None? <==> forall k :: 0 <= k < |patterns| ==> !Matches(s, patterns[k])
    ensures r.Some? ==> exists k :: 0 <= k < |patterns| && Matches(s, patterns[k]) && r.value == patterns[k].decade
                                    && forall j :: 0 <= j < k ==> !Matches(s, patterns[j])
  {
    if patterns == [] then None
    else if Matches(s, patterns[0]) then Some(patterns[0].decade)
    else
      var r := FirstDecade(s, patterns[1..]);
      assert forall k :: 0 < k < |patterns| ==> patterns[k] == patterns[1..][k - 1];
      r
  }

  // ---------------------------------------------------------------- keyword tables

  /** `genre_keywords`, in the order of its items. */
  const GenreKeywords: seq<(string, seq<string>)> := [
    ("action", ["action", "fight", "battle"]),
    ("comedy", ["comedy", "funny", "humor", "laugh"]),
    ("drama", ["drama", "dramatic"]),
    ("horror", ["horror", "scary", "terrifying"]),
    ("thriller", ["thriller", "suspense", "suspenseful"]),
    ("romance", ["romance", "romantic", "love story"]),
    ("sci-fi", ["sci-fi", "science fiction", "scifi"]),
    ("fantasy", ["fantasy", "magical"]),
    ("animation", ["animation", "animated", "cartoon"]),
    ("documentary", ["documentary", "documentary"])
  ]

  const TopRatedWords: seq<string> := ["highly rated", "top rated", "best", "excellent"]
  const GoodWords: seq<string> := ["good", "quality"]
  const PopularWords: seq<string> := ["popular", "trending", "famous"]

  const StopWords: set<string> := {"movie", "movies", "film", "films", "show", "like", "similar", "about",
                                   "find", "recommend", "want", "looking", "for", "with", "from", "the", "a", "an"}

  /** The genres whose keyword list has an entry occurring in `s`, in table order. */
  function Mentioned(s: string, table: seq<(string, seq<string>)>): seq<string>
  {
    if table == [] then []
    else
      var init := Mentioned(s, table[..|table| - 1]);
      if ContainsAny(s, table[|table| - 1].1) then init + [table[|table| - 1].0] else init
  }

  /** `[genre for genre, _ in table]` */
  function GenreNames(table: seq<(string, seq<string>)>): (names: seq<string>)
    ensures |names| == |table|
    ensures forall k :: 0 <= k < |table| ==> names[k] == table[k].0
  {
    seq(|table|, k requires 0 <= k < |table| => table[k].0)
  }

  /** The detected genres come in table order. */
  lemma {:induction false} MentionedOrder(s: string, table: seq<(string, seq<string>)>)
    ensures IsSubsequence(Mentioned(s, table), GenreNames(table))
  {
    if table != [] {
      var init, last := table[..|table| - 1], table[|table| - 1];
      MentionedOrder(s, init);
      var before := Mentioned(s, init);
      var names := GenreNames(table);
      assert GenreNames(init) == names[..|names| - 1];
      assert names == GenreNames(init) + [last.0];
      SubsequenceExtend(before, GenreNames(init), last.0);
      if ContainsAny(s, last.1) {
        assert (before + [last.0])[..|before|] == before;
      }
    }
  }

  /** A genre is detected exactly when one of its keywords is a substring of the text. */
  lemma {:induction false} MentionedMember(s: string, table: seq<(string, seq<string>)>, g: string)
    ensures g in Mentioned(s, table) <==> exists k :: 0 <= k < |table| && table[k].0 == g && ContainsAny(s, table[k].1)
  {
    if table != [] {
      var init, last := table[..|table| - 1], table[|table| - 1];
      MentionedMember(s, init, g);
      if g in Mentioned(s, init) {
        var k :| 0 <= k < |init| && init[k].0 == g && ContainsAny(s, init[k].1);
        assert table[k] == init[k];
      }
      if exists k :: 0 <= k < |table| && table[k].0 == g && ContainsAny(s, table[k].1) {
        var k :| 0 <= k < |table| && table[k].0 == g && ContainsAny(s, table[k].1);
        if k < |init| {
          assert init[k] == table[k];
        }
      }
    }
  }

  /**
   * The detected genres keep the table's order, and a genre is detected exactly when one of
   * its keywords is a substring of the text.
   */
  lemma MentionedSpec(s: string, table: seq<(string, seq<string>)>)
    ensures IsSubsequence(Mentioned(s, table), GenreNames(table))
    ensures forall g :: g in Mentioned(s, table) <==> exists k :: 0 <= k < |table| && table[k].0 == g && ContainsAny(s, table[k].1)
  {
    MentionedOrder(s, table);
    forall g
      ensures g in Mentioned(s, table) <==> exists k :: 0 <= k < |table| && table[k].0 == g && ContainsAny(s, table[k].1)
    {
      MentionedMember(s, table, g);
    }
  }

  /** `[w for w in words if w not in stop_words and len(w) > 2]` */
  function TitleKeywords(words: seq<string>, stopWords: set<string>): seq<string>
  {
    if words == [] then []
    else
      var init := TitleKeywords(words[..|words| - 1], stopWords);
      var w := words[|words| - 1];
      if w !in stopWords && |w| > 2 then init + [w] else init
  }

  /** The title keywords come in the order of the words. */
  lemma {:induction false} TitleKeywordsOrder(words: seq<string>, stopWords: set<string>)
    ensures IsSubsequence(TitleKeywords(words, stopWords), words)
  {
    if words != [] {
      var init, w := words[..|words| - 1], words[|words| - 1];
      TitleKeywordsOrder(init, stopWords);
      var before := TitleKeywords(init, stopWords);
      assert words == init + [w];
      SubsequenceExtend(before, init, w);
      if w !in stopWords && |w| > 2 {
        assert (before + [w])[..|before|] == before;
      }
    }
  }

  /** A word is a title keyword exactly when it is longer than two characters and not a stop word. */
  lemma {:induction false} TitleKeywordsMember(words: seq<string>, stopWords: set<string>, v: string)
    ensures v in TitleKeywords(words, stopWords) <==> v in words && v !in stopWords && |v| > 2
  {
    if words != [] {
      var init, w := words[..|words| - 1], words[|words| - 1];
      TitleKeywordsMember(init, stopWords, v);
      assert words == init + [w];
    }
  }

  /** The title keywords are the words longer than two characters outside the stop list, in order. */
  lemma TitleKeywordsSpec(words: seq<string>, stopWords: set<string>)
    ensures IsSubsequence(TitleKeywords(words, stopWords), words)
    ensures forall w :: w in TitleKeywords(words, stopWords) <==> w in words && w !in stopWords && |w| > 2
  {
    TitleKeywordsOrder(words, stopWords);
    forall w
      ensures w in TitleKeywords(words, stopWords) <==> w in words && w !in stopWords && |w| > 2
    {
      TitleKeywordsMember(words, stopWords, w);
    }
  }

  // ---------------------------------------------------------------- parse_query

  /** The `params` dictionary; a `None` field is a key `parse_query` does not set. */
  datatype QueryParams = QueryParams(
    year: Option<int>,
    decade: Option<int>,
    genres: Option<seq<string>>,
    minRating: Option<real>,
    querySentiment: real,
    sortBy: Option<string>,
    keywords: Option<string>)

  /** `min_rating`: 7.0 for praise, else 6.0 for a quality word, else unset. */
  function MinRating(lower: string): (r: Option<real>)
    ensures r == Some(7.0) <==> ContainsAny(lower, TopRatedWords)
    ensures r == Some(6.0) <==> !ContainsAny(lower, TopRatedWords) && ContainsAny(lower, GoodWords)
    ensures r.None? <==> !ContainsAny(lower, TopRatedWords) && !ContainsAny(lower, GoodWords)
  {
    if ContainsAny(lower, TopRatedWords) then Some(7.0)
    else if ContainsAny(lower, GoodWords) then Some(6.0)
    else None
  }

  /** `keywords`: the first three title keywords joined by spaces, unset when there are none. */
  function KeywordsParam(lower: string): (r: Option<string>)
    ensures r.None? <==> TitleKeywords(Split(lower), StopWords) == []
  {
    var titleKeywords := TitleKeywords(Split(lower), StopWords);
    if titleKeywords != [] then Some(Join(Take(titleKeywords, 3), " ")) else None
  }

  /**
   * The parameters `parse_query` reads out of `query`, `sentiment` standing for TextBlob's
   * polarity of the query. The year is searched in the query as typed, every other rule in
   * its lower-cased form.
   */
  function QuerySpec(query: string, sentiment: real): (p: QueryParams)
    ensures p.year.Some? ==> 1900 <= p.year.value <= 2099
    ensures p.minRating.Some? ==> p.minRating.value == 7.0 || p.minRating.value == 6.0
    ensures p.genres.Some? ==> p.genres.value != []
    ensures p.querySentiment == sentiment
  {
    var lower := Lower(query);
    var detected := Mentioned(lower, GenreKeywords);
    QueryParams(
      FindYear(query),
      FirstDecade(lower, DecadePatterns),
      if detected != [] then Some(detected) else None,
      MinRating(lower),
      sentiment,
      if ContainsAny(lower, PopularWords) then Some("popularity") else None,
      KeywordsParam(lower))
  }

  /** A word whose first character does not occur in the text is nowhere in it. */
  lemma AbsentWord(s: string, w: string)
    requires |w| > 0 && w[0] !in s
    ensures !HasWord(s, w)
  {
    forall i | 0 <= i <= |s| && OccursAt(s, w, i)
      ensures false
    {
    }
  }

  /** No decade row before "twenty tens" matches "2010s". */
  lemma TwentyTensEarlierRows(n: nat)
    requires n < 3
    ensures !Matches("2010s", DecadePatterns[n])
  {
    var s := "2010s";
    var p := DecadePatterns[n];
    forall k | 0 <= k < |p.words|
      ensures !HasWord(s, p.words[k]) && !(p.prefix.Some? && HasWord(s, p.prefix.value + p.words[k]))
    {
      if p.prefix.Some? {
        var w := p.prefix.value + p.words[k];
        assert w[0] == 'n';
        AbsentWord(s, w);
      }
      if p.words[k] == "2000s" {
        assert s[0..5][2] != "2000s"[2];
      } else {
        AbsentWord(s, p.words[k]);
      }
    }
  }

  /** "2010s" names the decade 2010 and, being no standalone four-digit token, no year. */
  lemma TwentyTens()
    ensures FindYear("2010s") == None
    ensures FirstDecade(Lower("2010s"), DecadePatterns) == Some(2010)
  {
    var s := "2010s";
    assert !YearAt(s, 0) by {
      assert IsWordChar(s[3]) && IsWordChar(s[4]);
    }
    assert !YearAt(s, 1);
    assert FirstYearAt(s, 2) == None;
    assert Lower(s) == s;
    TwentyTensEarlierRows(0);
    TwentyTensEarlierRows(1);
    TwentyTensEarlierRows(2);
    var p := DecadePatterns;
    assert p[3].words[1] == "2010s";
    assert WordAt(s, "2010s", 0);
    assert Matches(s, p[3]);
    assert p[1..][1..][1..][0] == p[3];
  }

  /** The decade loop of `parse_query`: the first matching row wins (`break`). */
  method DetectDecade(queryLower: string, patterns: seq<DecadePattern>) returns (decade: Option<int>)
    ensures decade == FirstDecade(queryLower, patterns)
  {
    decade := None;
    var i := 0;
    while i < |patterns|
      invariant 0 <= i <= |patterns|
      invariant FirstDecade(queryLower, patterns) == FirstDecade(queryLower, patterns[i..])
    {
      assert patterns[i..][1..] == patterns[i + 1..];
      if Matches(queryLower, patterns[i]) {
        decade := Some(patterns[i].decade);
        break;
      }
      i := i + 1;
    }
  }

  /** The genre loop of `parse_query`: every row with a keyword in the text, in table order. */
  method DetectGenres(queryLower: string, table: seq<(string, seq<string>)>) returns (detectedGenres: seq<string>)
    ensures detectedGenres == Mentioned(queryLower, table)
  {
    detectedGenres := [];
    for k := 0 to |table|
      invariant detectedGenres == Mentioned(queryLower, table[..k])
    {
      assert table[..k + 1][..k] == table[..k];
      var (genre, keywords) := table[k];
      if ContainsAny(queryLower, keywords) {
        detectedGenres := detectedGenres + [genre];
      }
    }
    assert table[..|table|] == table;
  }

  /**
   * `NLPInterface.parse_query(query)`. `polarity` stands for TextBlob's `sentiment.polarity`.
   */
  method ParseQuery(query: string, polarity: string -> real) returns (params: QueryParams)
    ensures params == QuerySpec(query, polarity(query))
  {
    var queryLower := Lower(query);
    // Extract year
    var year := FindYear(query);
    // Extract decade
    var decade := DetectDecade(queryLower, DecadePatterns);
    // Extract genres
    var detectedGenres := DetectGenres(queryLower, GenreKeywords);
    var genres: Option<seq<string>> := None;
    if detectedGenres != [] {
      genres := Some(detectedGenres);
    }
    // Extract rating expectations
    var minRating: Option<real> := None;
    if ContainsAny(queryLower, TopRatedWords) {
      minRating := Some(7.0);
    } else if ContainsAny(queryLower, GoodWords) {
      minRating := Some(6.0);
    }
    // Extract mood/sentiment
    var sentiment := polarity(query);
    // Extract popularity
    var sortBy: Option<string> := None;
    if ContainsAny(queryLower, PopularWords) {
      sortBy := Some("popularity");
    }
    // Extract title keywords
    var words := Split(queryLower);
    var titleKeywords := TitleKeywords(words, StopWords);
    var keywords: Option<string> := None;
    if titleKeywords != [] {
      keywords := Some(Join(Take(titleKeywords, 3), " "));
    }
    params := QueryParams(year, decade, genres, minRating, sentiment, sortBy, keywords);
  }

  // ---------------------------------------------------------------- generate_response

  const Apology := "I couldn't find any movies matching your criteria. Try adjusting your search!"

  /** `str(n)` for an integer. */
  function IntText(n: int): (s: string)
    ensures |s| > 0 && (IsDigit(s[0]) || s[0] == '-')
  {
    if n < 0 then "-" + NatToString(-n) else NatToString(n)
  }

  /** `str(x)` for the two rating bounds `parse_query` sets. */
  function RatingText(x: real): string
    requires x == 7.0 || x == 6.0
  {
    if x == 7.0 then "7.0" else "6.0"
  }

  /** The phrases `generate_response` can append to `response_parts`. */
  datatype Phrase =
    | Found(count: nat)             // "I found {count} movie(s) for you"
    | InGenres(genres: seq<string>) // "in the {genres} genre(s)"
    | FromYear(year: int)           // "from {year}"
    | FromDecade(decade: int)       // "from the {decade}s"
    | AboveRating(rating: real)     // "with rating above {rating}"

  /** The rating bounds `parse_query` can set. */
  predicate PhraseOk(ph: Phrase) {
    ph.AboveRating? ==> ph.rating == 7.0 || ph.rating == 6.0
  }

  /** The f-string of each phrase. */
  function PhraseText(ph: Phrase): string
    requires PhraseOk(ph)
  {
    match ph
    case Found(count) => "I found " + NatToString(count) + " movie" + (if count != 1 then "s" else "") + " for you"
    case InGenres(genres) => "in the " + Join(genres, ", ") + " genre(s)"
    case FromYear(year) => "from " + IntText(year)
    case FromDecade(decade) => "from the " + IntText(decade) + "s"
    case AboveRating(rating) => "with rating above " + RatingText(rating)
  }

  /** "movie" takes an "s" exactly when the count is not one. */
  lemma FoundPlural(count: nat)
    ensures PhraseText(Found(count)) == "I found " + NatToString(count) + (if count == 1 then " movie" else " movies") + " for you"
  {
    var plural := if count != 1 then "s" else "";
    assert " movie" + plural == if count == 1 then " movie" else " movies";
  }

  /** Different numbers have different decimal texts. */
  lemma IntTextInjective(a: int, b: int)
    requires IntText(a) == IntText(b)
    ensures a == b
  {
    if a < 0 && b < 0 {
      assert NatToString(-a) == IntText(a)[1..] == IntText(b)[1..] == NatToString(-b);
      NatToStringInjective(-a, -b);
    } else if a >= 0 && b >= 0 {
      NatToStringInjective(a, b);
    }
  }

  lemma {:induction false} NatToStringInjective(a: nat, b: nat)
    requires NatToString(a) == NatToString(b)
    ensures a == b
  {
    var s := NatToString(a);
    if a >= 10 && b >= 10 {
      assert NatToString(a / 10) == s[..|s| - 1] == NatToString(b / 10);
      NatToStringInjective(a / 10, b / 10);
      assert DigitChar(a % 10) == s[|s| - 1] == DigitChar(b % 10);
    }
  }

  /** No other phrase reads like the phrase of a decade: the text names the decade and the kind. */
  lemma DecadeTextUnique(d: int, ph: Phrase)
    requires PhraseOk(ph)
    requires PhraseText(ph) == PhraseText(FromDecade(d))
    ensures ph == FromDecade(d)
  {
    var t := PhraseText(FromDecade(d));
    assert t[..9] == "from the ";
    assert t[0] == 'f' && t[5] == 't';
    if ph.FromDecade? {
      var u := PhraseText(ph);
      assert IntText(ph.decade) == u[9..|u| - 1] == t[9..|t| - 1] == IntText(d);
      IntTextInjective(ph.decade, d);
    }
  }

  /** The rating bounds `parse_query` sets. */
  ghost predicate WellFormed(p: QueryParams) {
    p.minRating.Some? ==> p.minRating.value == 7.0 || p.minRating.value == 6.0
  }

  /** The phrases of the reply to a search with these parameters, in the order they are appended. */
  function ResponsePhrases(count: nat, p: QueryParams): (ps: seq<Phrase>)
    requires WellFormed(p)
    ensures forall k :: 0 <= k < |ps| ==> PhraseOk(ps[k])
  {
    [Found(count)] + GenrePhrases(p) + TimePhrases(p) + RatingPhrases(p)
  }

  function GenrePhrases(p: QueryParams): seq<Phrase> {
    if p.genres.Some? then [InGenres(p.genres.value)] else []
  }

  /** The year phrase, else the decade phrase, else nothing. */
  function TimePhrases(p: QueryParams): seq<Phrase> {
    if p.year.Some? then [FromYear(p.year.value)] else if p.decade.Some? then [FromDecade(p.decade.value)] else []
  }

  function RatingPhrases(p: QueryParams): seq<Phrase> {
    if p.minRating.Some? then [AboveRating(p.minRating.value)] else []
  }

  /**
   * The reply opens with the count; a year phrase comes in place of the decade phrase,
   * which appears only for a query without a year; the rating phrase, when there is one,
   * closes the list.
   */
  lemma ResponsePhrasesSpec(count: nat, p: QueryParams)
    requires WellFormed(p)
    ensures ResponsePhrases(count, p)[0] == Found(count)
    ensures p.genres.Some? <==> InGenres(p.genres.GetOr([])) in ResponsePhrases(count, p)
    ensures forall y :: FromYear(y) in ResponsePhrases(count, p) <==> p.year == Some(y)
    ensures forall d :: FromDecade(d) in ResponsePhrases(count, p) <==> p.year.None? && p.decade == Some(d)
    ensures p.minRating.Some? <==> ResponsePhrases(count, p)[|ResponsePhrases(count, p)| - 1].AboveRating?
  {
  }

  /** The texts of the phrases, in order. */
  function Texts(ps: seq<Phrase>): (ts: seq<string>)
    requires forall k :: 0 <= k < |ps| ==> PhraseOk(ps[k])
    ensures |ts| == |ps|
  {
    if ps == [] then [] else Texts(ps[..|ps| - 1]) + [PhraseText(ps[|ps| - 1])]
  }

  /** A text in the list is the text of one of the phrases. */
  lemma {:induction false} TextsMember(ps: seq<Phrase>, t: string)
    requires forall k :: 0 <= k < |ps| ==> PhraseOk(ps[k])
    requires t in Texts(ps)
    ensures exists k :: 0 <= k < |ps| && PhraseText(ps[k]) == t
  {
    var init := ps[..|ps| - 1];
    if t in Texts(init) {
      TextsMember(init, t);
      var k :| 0 <= k < |init| && PhraseText(init[k]) == t;
      assert ps[k] == init[k];
    }
  }

  /** The text "from the {d}s" is in the reply exactly when the query set that decade and no year. */
  lemma DecadeInResponse(count: nat, p: QueryParams, d: int)
    requires WellFormed(p)
    ensures PhraseText(FromDecade(d)) in Texts(ResponsePhrases(count, p)) <==> p.year.None? && p.decade == Some(d)
  {
    var ps := ResponsePhrases(count, p);
    ResponsePhrasesSpec(count, p);
    if PhraseText(FromDecade(d)) in Texts(ps) {
      TextsMember(ps, PhraseText(FromDecade(d)));
      var k :| 0 <= k < |ps| && PhraseText(ps[k]) == PhraseText(FromDecade(d));
      DecadeTextUnique(d, ps[k]);
    }
    if p.year.None? && p.decade == Some(d) {
      var k :| 0 <= k < |ps| && ps[k] == FromDecade(d);
      TextsAt(ps, k);
    }
  }

  lemma {:induction false} TextsAt(ps: seq<Phrase>, k: int)
    requires forall j :: 0 <= j < |ps| ==> PhraseOk(ps[j])
    requires 0 <= k < |ps|
    ensures Texts(ps)[k] == PhraseText(ps[k])
  {
    if k < |ps| - 1 {
      TextsAt(ps[..|ps| - 1], k);
    }
  }

  /** The reply to a search: the phrases joined by spaces, with a final "!". */
  function Response(count: nat, p: QueryParams): (r: string)
    requires WellFormed(p)
    ensures |r| > 0 && r[|r| - 1] == '!'
  {
    var text := Join(Texts(ResponsePhrases(count, p)), " ");
    assert (text + "!")[|text|] == '!';
    text + "!"
  }

  /** One more phrase adds one more text. */
  lemma TextsSnoc(ps: seq<Phrase>, ph: Phrase)
    requires forall k :: 0 <= k < |ps| ==> PhraseOk(ps[k])
    requires PhraseOk(ph)
    ensures forall k :: 0 <= k < |ps + [ph]| ==> PhraseOk((ps + [ph])[k])
    ensures Texts(ps + [ph]) == Texts(ps) + [PhraseText(ph)]
  {
    assert (ps + [ph])[..|ps|] == ps;
  }

  /** `response_parts.append(...)` of one more phrase. */
  method AppendPhrase(parts: seq<string>, ghost ps: seq<Phrase>, ph: Phrase) returns (more: seq<string>)
    requires forall k :: 0 <= k < |ps| ==> PhraseOk(ps[k])
    requires PhraseOk(ph) && parts == Texts(ps)
    ensures forall k :: 0 <= k < |ps + [ph]| ==> PhraseOk((ps + [ph])[k])
    ensures more == Texts(ps + [ph])
  {
    TextsSnoc(ps, ph);
    more := parts + [PhraseText(ph)];
  }

  /** The appending part of `generate_response`, for a non-empty result and parsed parameters. */
  method BuildResponse(count: nat, params: QueryParams) returns (r: string)
    requires WellFormed(params)
    ensures r == Response(count, params)
  {
    var responseParts := [PhraseText(Found(count))];
    ghost var phrases := [Found(count)];
    assert responseParts == Texts(phrases);
    if params.genres.Some? {
      responseParts := AppendPhrase(responseParts, phrases, InGenres(params.genres.value));
      phrases := phrases + [InGenres(params.genres.value)];
    }
    assert phrases == [Found(count)] + GenrePhrases(params);
    if params.year.Some? {
      responseParts := AppendPhrase(responseParts, phrases, FromYear(params.year.value));
      phrases := phrases + [FromYear(params.year.value)];
    } else if params.decade.Some? {
      responseParts := AppendPhrase(responseParts, phrases, FromDecade(params.decade.value));
      phrases := phrases + [FromDecade(params.decade.value)];
    }
    assert phrases == [Found(count)] + GenrePhrases(params) + TimePhrases(params);
    if params.minRating.Some? {
      responseParts := AppendPhrase(responseParts, phrases, AboveRating(params.minRating.value));
      phrases := phrases + [AboveRating(params.minRating.value)];
    }
    assert phrases == ResponsePhrases(count, params);
    r := Join(responseParts, " ") + "!";
  }

  /** `NLPInterface.generate_response(movies, query)`. */
  method GenerateResponse(movies: seq<Movie>, query: string, polarity: string -> real) returns (r: string)
    ensures movies == [] ==> r == Apology
    ensures movies != [] ==> r == Response(|movies|, QuerySpec(query, polarity(query)))
  {
    if movies == [] {
      return Apology;
    }
    var count := |movies|;
    var params := ParseQuery(query, polarity);
    r := BuildResponse(count, params);
  }
}
