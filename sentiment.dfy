/**
 * backend/app/services/sentiment.py: text cleaning, the classification of a
 * polarity, and the aggregation of per-article polarities into the
 * stock's sentiment record. The RSS feeds arrive as parameters and the
 * TextBlob polarity is a function parameter.
 */
module Sentiment {
  import opened Wrappers
  import opened Series
  import opened Models

  const PositiveThreshold: real := 0.1
  const NegativeThreshold: real := -0.1
  const NewsLimit: nat := 10
  const HeadlineCount: nat := 5

  /** `_classify_sentiment`: strictly above 0.1 is positive, strictly below -0.1 negative. */
  function Classify(score: real): (t: SentimentType)
    ensures t == Positive <==> score > PositiveThreshold
    ensures t == Negative <==> score < NegativeThreshold
    ensures t == Neutral <==> NegativeThreshold <= score <= PositiveThreshold
  {
    if score > PositiveThreshold then Positive
    else if score < NegativeThreshold then Negative
    else Neutral
  }

  /** Ordering of the labels from negative to positive. */
  function LabelRank(t: SentimentType): nat {
    match t
    case Negative => 0
    case Neutral => 1
    case Positive => 2
  }

  /** A higher score never gets a more negative label; the thresholds themselves are neutral. */
  lemma ClassifyMonotone(x: real, y: real)
    requires x <= y
    ensures LabelRank(Classify(x)) <= LabelRank(Classify(y))
    ensures Classify(PositiveThreshold) == Neutral && Classify(NegativeThreshold) == Neutral
  {
  }

  // ---------------------------------------------------------------- text

  /** `\s` and the separators of `str.split()`, restricted to ASCII. */
  predicate IsSpace(c: char) {
    c == ' ' || c == '\t' || c == '\n' || c == '\r' || c == '\U{B}' || c == '\U{C}'
    || ('\U{1C}' <= c <= '\U{1F}')
  }

  /** `\w`, restricted to ASCII: letters, digits and the underscore. */
  predicate IsWordChar(c: char) {
    ('a' <= c <= 'z') || ('A' <= c <= 'Z') || ('0' <= c <= '9') || c == '_'
  }

  /** Position of the first `c` in `s`. */
  function IndexOf(s: string, c: char): (r: Option<nat>)
    ensures r.None? <==> c !in s
    ensures r.Some? ==> r.value < |s| && s[r.value] == c && c !in s[..r.value]
  {
    if s == [] then None
    else if s[0] == c then Some(0)
    else
      var r := IndexOf(s[1..], c);
      assert s[..1] + s[1..] == s;
      if r.None? then None
      else
        assert s[..r.value + 1] == [s[0]] + s[1..][..r.value];
        Some(r.value + 1)
  }

  /** `r` is `t` with some characters deleted: its characters appear in `t` in the same order. */
  predicate IsSubsequence(r: string, t: string)
    decreases |t|
  {
    if r == [] then true
    else if t == [] then false
    else (r[0] == t[0] && IsSubsequence(r[1..], t[1..])) || IsSubsequence(r, t[1..])
  }

  /** A subsequence of a suffix is a subsequence of the whole. */
  lemma {:induction false} SubsequenceOfSuffix(r: string, t: string, k: nat)
    requires k <= |t| && IsSubsequence(r, t[k..])
    ensures IsSubsequence(r, t)
    decreases k
  {
    if k > 0 {
      assert t[1..][k - 1..] == t[k..];
      SubsequenceOfSuffix(r, t[1..], k - 1);
    }
  }

  /**
   * `re.sub(r'<[^>]+>', '', text)`: scanning left to right, a `<` followed by
   * at least one character and then the first `>` after it is removed
   * together with them; a `<` without such a closing `>` stays.
   */
  function StripTags(t: string): (r: string)
    ensures |r| <= |t|
    ensures forall c :: c in r ==> c in t
    ensures IsSubsequence(r, t)
  {
    if t == [] then []
    else if t[0] == '<' && IndexOf(t[1..], '>').Some? && IndexOf(t[1..], '>').value >= 1 then
      var k := IndexOf(t[1..], '>').value + 2;
      var rest := t[k..];
      assert forall c :: c in rest ==> c in t;
      var r := StripTags(rest);
      SubsequenceOfSuffix(r, t, k);
      r
    else
      var rest := StripTags(t[1..]);
      assert forall c :: c in t[1..] ==> c in t;
      assert ([t[0]] + rest)[1..] == rest;
      [t[0]] + rest
  }

  /** Every `<` left is directly followed by `>` or has no `>` anywhere after it. */
  predicate TagFree(r: string) {
    forall i :: 0 <= i < |r| && r[i] == '<' ==> (i + 1 < |r| && r[i + 1] == '>') || '>' !in r[i + 1..]
  }

  /** A text without `<` has no tag to strip. */
  lemma {:induction false} StripTagsUnchanged(t: string)
    requires '<' !in t
    ensures StripTags(t) == t
  {
    if t != [] {
      assert '<' !in t[1..] by { assert forall c :: c in t[1..] ==> c in t; }
      StripTagsUnchanged(t[1..]);
    }
  }

  /** Stripping keeps a leading character other than `<`. */
  lemma StripTagsKeepsHead(t: string)
    requires |t| > 0 && t[0] != '<'
    ensures |StripTags(t)| > 0 && StripTags(t)[0] == t[0]
  {
  }

  /** No `<...>` span is left once tags are stripped. */
  lemma {:induction false} StripTagsTagFree(t: string)
    ensures TagFree(StripTags(t))
  {
    if t == [] {
    } else if t[0] == '<' && IndexOf(t[1..], '>').Some? && IndexOf(t[1..], '>').value >= 1 {
      StripTagsTagFree(t[IndexOf(t[1..], '>').value + 2..]);
    } else {
      var rest := StripTags(t[1..]);
      StripTagsTagFree(t[1..]);
      var r := [t[0]] + rest;
      assert StripTags(t) == r;
      forall i | 0 <= i < |r| && r[i] == '<'
        ensures (i + 1 < |r| && r[i + 1] == '>') || '>' !in r[i + 1..]
      {
        if i == 0 {
          if IndexOf(t[1..], '>').None? {
            assert r[1..] == rest;
          } else {
            assert t[1] == '>';
            StripTagsKeepsHead(t[1..]);
          }
        } else {
          assert rest[i - 1] == '<';
          assert r[i + 1..] == rest[i..];
        }
      }
    }
  }

  /** `re.sub(r'[^\w\s]', ' ', text)`. */
  function ReplaceSpecial(t: string): (r: string)
    ensures |r| == |t|
    ensures forall i :: 0 <= i < |t| ==> r[i] == if IsWordChar(t[i]) || IsSpace(t[i]) then t[i] else ' '
  {
    seq(|t|, i requires 0 <= i < |t| => if IsWordChar(t[i]) || IsSpace(t[i]) then t[i] else ' ')
  }

  /** The longest prefix without whitespace. */
  function TakeWord(s: string): (w: string)
    ensures |w| <= |s| && w == s[..|w|]
    ensures forall c :: c in w ==> !IsSpace(c)
    ensures |w| < |s| ==> IsSpace(s[|w|])
    ensures |s| > 0 && !IsSpace(s[0]) ==> |w| > 0
  {
    if s == [] || IsSpace(s[0]) then []
    else [s[0]] + TakeWord(s[1..])
  }

  /** The characters of `s` other than whitespace, in order. */
  function NonSpace(s: string): string {
    if s == [] then "" else (if IsSpace(s[0]) then "" else [s[0]]) + NonSpace(s[1..])
  }

  /** The words laid end to end. */
  function Concat(ws: seq<string>): string {
    if ws == [] then "" else ws[0] + Concat(ws[1..])
  }

  /** A whitespace-free prefix of `s` is kept whole by `NonSpace`. */
  lemma {:induction false} NonSpaceSplit(s: string, k: nat)
    requires k <= |s| && forall i :: 0 <= i < k ==> !IsSpace(s[i])
    ensures NonSpace(s) == s[..k] + NonSpace(s[k..])
    decreases k
  {
    if k > 0 {
      NonSpaceSplit(s[1..], k - 1);
      assert s[1..][k - 1..] == s[k..];
      assert s[..k] == [s[0]] + s[1..][..k - 1];
    }
  }

  /** `str.split()`: the maximal runs of non-whitespace characters, in order. */
  function Words(s: string): (ws: seq<string>)
    ensures forall w :: w in ws ==> |w| > 0 && forall c :: c in w ==> !IsSpace(c) && c in s
    ensures Concat(ws) == NonSpace(s)
    decreases |s|
  {
    if s == [] then []
    else if IsSpace(s[0]) then
      assert forall c :: c in s[1..] ==> c in s;
      Words(s[1..])
    else
      var w := TakeWord(s);
      assert forall c :: c in s[|w|..] ==> c in s;
      assert forall c :: c in w ==> c in s;
      var rest := Words(s[|w|..]);
      assert ([w] + rest)[1..] == rest;
      assert forall i :: 0 <= i < |w| ==> w[i] in w;
      NonSpaceSplit(s, |w|);
      [w] + rest
  }

  /** `' '.join(ws)`. */
  function Join(ws: seq<string>): string {
    if ws == [] then ""
    else if |ws| == 1 then ws[0]
    else ws[0] + " " + Join(ws[1..])
  }

  /** Word characters separated by single spaces, with none at either end. */
  predicate Normalized(r: string) {
    && (forall i :: 0 <= i < |r| ==> IsWordChar(r[i]) || r[i] == ' ')
    && (|r| > 0 ==> r[0] != ' ' && r[|r| - 1] != ' ')
    && (forall i :: 0 <= i < |r| - 1 ==> r[i] != ' ' || r[i + 1] != ' ')
  }

  /** Joining non-empty words of word characters gives normalized text. */
  lemma {:induction false} JoinNormalized(ws: seq<string>)
    requires forall w :: w in ws ==> |w| > 0 && forall c :: c in w ==> IsWordChar(c)
    ensures Normalized(Join(ws))
  {
    if |ws| == 1 {
      assert forall i :: 0 <= i < |ws[0]| ==> ws[0][i] in ws[0];
    } else if |ws| > 1 {
      var w, rest := ws[0], Join(ws[1..]);
      JoinNormalized(ws[1..]);
      assert forall i :: 0 <= i < |w| ==> w[i] in w;
      var r := w + " " + rest;
      assert Join(ws) == r;
      assert |rest| > 0 by {
        assert ws[1] in ws;
        JoinNonEmpty(ws[1..]);
      }
      assert forall i :: 0 <= i < |r| ==> r[i] == if i < |w| then w[i] else if i == |w| then ' ' else rest[i - |w| - 1];
    }
  }

  lemma JoinNonEmpty(ws: seq<string>)
    requires |ws| > 0 && |ws[0]| > 0
    ensures |Join(ws)| > 0
  {
  }

  /** What follows a space of a normalized text is normalized and not empty. */
  lemma NormalizedSuffix(s: string, k: nat)
    requires Normalized(s) && k < |s| && s[k] == ' '
    ensures k + 1 < |s| && Normalized(s[k + 1..])
  {
    assert k + 1 < |s|;
    var t := s[k + 1..];
    assert forall i :: 0 <= i < |t| ==> t[i] == s[k + 1 + i];
    assert t[0] != ' ';
  }

  /** After the first word of a longer normalized text come one space and a normalized rest. */
  lemma NormalizedSplit(s: string)
    requires Normalized(s) && |TakeWord(s)| < |s|
    ensures var k := |TakeWord(s)|;
      && s[k] == ' ' && k + 1 < |s|
      && Normalized(s[k + 1..])
      && s == TakeWord(s) + " " + s[k + 1..]
  {
    var w := TakeWord(s);
    var k := |w|;
    assert s[k] == ' ' by {
      assert IsSpace(s[k]) && (IsWordChar(s[k]) || s[k] == ' ');
    }
    NormalizedSuffix(s, k);
    SplitAt(s, k);
  }

  lemma SplitAt<T>(s: seq<T>, k: nat)
    requires k < |s|
    ensures s == s[..k] + [s[k]] + s[k + 1..]
  {
    assert s == s[..k] + [s[k]] + s[k + 1..];
  }

  lemma WordsAfterSpace(s: string)
    requires |s| > 0 && IsSpace(s[0])
    ensures Words(s) == Words(s[1..])
  {
  }

  lemma WordsOfWordStart(s: string)
    requires |s| > 0 && !IsSpace(s[0])
    ensures Words(s) == [TakeWord(s)] + Words(s[|TakeWord(s)|..])
  {
  }

  lemma JoinCons(w: string, ws: seq<string>)
    requires |ws| > 0
    ensures Join([w] + ws) == w + " " + Join(ws)
  {
    assert ([w] + ws)[1..] == ws;
  }

  /** A normalized text splits and joins back to itself. */
  lemma {:induction false} JoinWordsOfNormalized(s: string)
    requires Normalized(s)
    ensures Join(Words(s)) == s
    decreases |s|
  {
    if s != [] {
      var w := TakeWord(s);
      assert !IsSpace(s[0]);
      WordsOfWordStart(s);
      if |w| == |s| {
        assert s[|w|..] == [];
        assert w == s;
      } else {
        NormalizedSplit(s);
        var rest := s[|w|..];
        var tail := s[|w| + 1..];
        assert rest[1..] == tail;
        WordsAfterSpace(rest);
        JoinWordsOfNormalized(tail);
        WordsOfWordStart(tail);
        JoinCons(w, Words(tail));
      }
    }
  }

  /** `_clean_text`: tags removed, other non-word characters turned into spaces, whitespace collapsed. */
  function CleanText(t: string): string {
    Join(Words(ReplaceSpecial(StripTags(t))))
  }

  /** Cleaned text is word characters separated by single spaces, so in particular has no `<` left. */
  lemma CleanTextNormalized(t: string)
    ensures Normalized(CleanText(t))
    ensures '<' !in CleanText(t)
  {
    var replaced := ReplaceSpecial(StripTags(t));
    var ws := Words(replaced);
    forall w, c | w in ws && c in w ensures IsWordChar(c) {
      var i :| 0 <= i < |replaced| && replaced[i] == c;
    }
    JoinNormalized(ws);
  }

  /** Cleaning a cleaned text changes nothing. */
  lemma CleanTextIdempotent(t: string)
    ensures CleanText(CleanText(t)) == CleanText(t)
  {
    var s := CleanText(t);
    CleanTextNormalized(t);
    StripTagsUnchanged(s);
    assert ReplaceSpecial(s) == s;
    JoinWordsOfNormalized(s);
  }

  /** Normalized text is already clean. */
  lemma CleanTextKeepsNormalized(s: string)
    requires Normalized(s)
    ensures CleanText(s) == s
  {
    StripTagsUnchanged(s);
    assert ReplaceSpecial(s) == s;
    JoinWordsOfNormalized(s);
  }

  /** The first word of a word followed by a space is that word. */
  lemma {:induction false} TakeWordBeforeSpace(w: string, rest: string)
    requires forall c :: c in w ==> !IsSpace(c)
    requires |rest| > 0 && IsSpace(rest[0])
    ensures TakeWord(w + rest) == w
    decreases |w|
  {
    if w != [] {
      assert (w + rest)[1..] == w[1..] + rest;
      assert forall c :: c in w[1..] ==> c in w;
      TakeWordBeforeSpace(w[1..], rest);
    }
  }

  /** Splitting words joined by single spaces gives back the words. */
  lemma {:induction false} WordsOfJoin(ws: seq<string>)
    requires forall w :: w in ws ==> |w| > 0 && forall c :: c in w ==> !IsSpace(c)
    ensures Words(Join(ws)) == ws
  {
    if |ws| == 1 {
      assert ws[0] in ws;
      WordsOfWord(ws[0]);
    } else if |ws| > 1 {
      assert ws[0] in ws;
      assert forall v :: v in ws[1..] ==> v in ws;
      WordsOfJoin(ws[1..]);
      WordsOfWordThenSpace(ws[0], Join(ws[1..]));
      assert ws == [ws[0]] + ws[1..];
    }
  }

  /** A non-empty whitespace-free text is one word. */
  lemma WordsOfWord(w: string)
    requires |w| > 0 && forall c :: c in w ==> !IsSpace(c)
    ensures Words(w) == [w]
  {
    TakeWordAll(w);
    WordsOfWordStart(w);
    assert w[|w|..] == [];
  }

  /** A word, a space and more text: the word, then the words of the rest. */
  lemma WordsOfWordThenSpace(w: string, tail: string)
    requires |w| > 0 && forall c :: c in w ==> !IsSpace(c)
    ensures Words(w + " " + tail) == [w] + Words(tail)
  {
    var s := w + " " + tail;
    assert s == w + (" " + tail);
    TakeWordBeforeSpace(w, " " + tail);
    WordsOfWordStart(s);
    assert s[|w|..] == " " + tail;
    WordsAfterSpace(" " + tail);
    assert (" " + tail)[1..] == tail;
  }

  /** A text without whitespace is a single word. */
  lemma {:induction false} TakeWordAll(w: string)
    requires forall c :: c in w ==> !IsSpace(c)
    ensures TakeWord(w) == w
  {
    if w != [] {
      assert forall c :: c in w[1..] ==> c in w;
      TakeWordAll(w[1..]);
    }
  }

  /**
   * Collapsing whitespace keeps exactly the words of the tag-stripped,
   * special-replaced text, so the cleaned text's non-whitespace characters
   * are those of that text, in order.
   */
  lemma CleanTextWords(t: string)
    ensures Words(CleanText(t)) == Words(ReplaceSpecial(StripTags(t)))
    ensures NonSpace(CleanText(t)) == NonSpace(ReplaceSpecial(StripTags(t)))
  {
    WordsOfJoin(Words(ReplaceSpecial(StripTags(t))));
  }

  // ------------------------------------------------------------- articles

  /** An RSS entry: only the title and summary are read. */
  datatype Article = Article(title: string, summary: string)

  function Prefix<T>(s: seq<T>, limit: nat): (r: seq<T>)
    ensures |r| == if |s| <= limit then |s| else limit
    ensures r == s[..|r|]
  {
    if |s| <= limit then s else s[..limit]
  }

  /** The first `limit` entries of each feed, feed after feed. */
  function FeedEntries(feeds: seq<seq<Article>>, limit: nat): seq<Article> {
    if feeds == [] then [] else Prefix(feeds[0], limit) + FeedEntries(feeds[1..], limit)
  }

  /** `_fetch_news` over already parsed feeds: at most `limit` articles, the first of the feeds' entries. */
  function FetchNews(feeds: seq<seq<Article>>, limit: nat): (articles: seq<Article>)
    ensures |articles| <= limit && |articles| <= |FeedEntries(feeds, limit)|
    ensures articles == FeedEntries(feeds, limit)[..|articles|]
    ensures |articles| < limit ==> articles == FeedEntries(feeds, limit)
  {
    Prefix(FeedEntries(feeds, limit), limit)
  }

  /** The titles of the articles, in order. */
  function Titles(articles: seq<Article>): (r: seq<string>)
    ensures |r| == |articles|
    ensures forall i :: 0 <= i < |articles| ==> r[i] == articles[i].title
  {
    seq(|articles|, i requires 0 <= i < |articles| => articles[i].title)
  }

  /** The text `_analyze_sentiment` scores: the title, a space and the summary. */
  function ArticleText(a: Article): string {
    a.title + " " + a.summary
  }

  /** `_analyze_sentiment`: the polarity of the cleaned text. */
  function AnalyzeSentiment(text: string, polarity: string -> real): real {
    polarity(CleanText(text))
  }

  /** `_analyze_sentiment` bound to a polarity function, as `analyze` calls it. */
  function Analyzer(polarity: string -> real): (f: string -> real)
    ensures forall text :: f(text) == AnalyzeSentiment(text, polarity)
  {
    text => AnalyzeSentiment(text, polarity)
  }

  /** The score `analyze` gives every article. */
  function Scores(articles: seq<Article>, analyze: string -> real): (r: seq<real>)
    ensures |r| == |articles|
    ensures forall i :: 0 <= i < |articles| ==> r[i] == analyze(ArticleText(articles[i]))
  {
    seq(|articles|, i requires 0 <= i < |articles| => analyze(ArticleText(articles[i])))
  }

  /** The polarity of every article. */
  function Polarities(articles: seq<Article>, polarity: string -> real): (r: seq<real>)
    ensures |r| == |articles|
    ensures forall i :: 0 <= i < |articles| ==> r[i] == AnalyzeSentiment(ArticleText(articles[i]), polarity)
  {
    Scores(articles, Analyzer(polarity))
  }

  /** Number of scores that classify as `kind`. */
  function CountLabel(scores: seq<real>, kind: SentimentType): (n: nat)
    ensures n <= |scores|
  {
    if scores == [] then 0
    else CountLabel(scores[..|scores| - 1], kind) + (if Classify(scores[|scores| - 1]) == kind then 1 else 0)
  }

  /** Counting one more score adds one to the count of its label. */
  lemma CountLabelStep(scores: seq<real>, i: nat)
    requires i < |scores|
    ensures forall kind :: CountLabel(scores[..i + 1], kind)
                           == CountLabel(scores[..i], kind) + (if Classify(scores[i]) == kind then 1 else 0)
  {
    assert scores[..i + 1][..i] == scores[..i];
  }

  /** Every score falls under exactly one label. */
  lemma {:induction false} CountsPartition(scores: seq<real>)
    ensures CountLabel(scores, Positive) + CountLabel(scores, Negative) + CountLabel(scores, Neutral) == |scores|
  {
    if scores != [] {
      CountsPartition(scores[..|scores| - 1]);
    }
  }

  /** The average polarity, 0 without articles. */
  function AverageScore(scores: seq<real>): real {
    if |scores| == 0 then 0.0 else Mean(scores)
  }

  /** The average of polarities in [-1, 1] is in [-1, 1]. */
  lemma AverageBounds(scores: seq<real>)
    requires forall i :: 0 <= i < |scores| ==> -1.0 <= scores[i] <= 1.0
    ensures -1.0 <= AverageScore(scores) <= 1.0
  {
    if |scores| > 0 {
      MeanBounds(scores, -1.0, 1.0);
    }
  }

  /** The polarity function stays within TextBlob's range [-1, 1]. */
  predicate PolarityInRange(articles: seq<Article>, polarity: string -> real) {
    forall i :: 0 <= i < |articles| ==> -1.0 <= AnalyzeSentiment(ArticleText(articles[i]), polarity) <= 1.0
  }

  /** The loop of `analyze`: scores every article and counts the scores per label. */
  method ScoreArticles(articles: seq<Article>, analyze: string -> real)
    returns (sentiments: seq<real>, positiveCount: nat, negativeCount: nat, neutralCount: nat)
    ensures sentiments == Scores(articles, analyze)
    ensures positiveCount == CountLabel(sentiments, Positive)
    ensures negativeCount == CountLabel(sentiments, Negative)
    ensures neutralCount == CountLabel(sentiments, Neutral)
  {
    ghost var scores := Scores(articles, analyze);
    sentiments := [];
    positiveCount, negativeCount, neutralCount := 0, 0, 0;
    for i := 0 to |articles|
      invariant sentiments == scores[..i]
      invariant positiveCount == CountLabel(scores[..i], Positive)
      invariant negativeCount == CountLabel(scores[..i], Negative)
      invariant neutralCount == CountLabel(scores[..i], Neutral)
    {
      var text := articles[i].title + " " + articles[i].summary;
      var sentiment := analyze(text);
      assert sentiment == scores[i];
      CountLabelStep(scores, i);
      sentiments := sentiments + [sentiment];
      if sentiment > 0.1 {
        positiveCount := positiveCount + 1;
      } else if sentiment < -0.1 {
        negativeCount := negativeCount + 1;
      } else {
        neutralCount := neutralCount + 1;
      }
    }
    assert scores[..|articles|] == scores;
  }

  /** `analyze`: fetches at most ten articles, scores each and aggregates. */
  method Analyze(symbol: string, feeds: seq<seq<Article>>, polarity: string -> real) returns (data: SentimentData)
    ensures var articles := FetchNews(feeds, NewsLimit);
      var scores := Polarities(articles, polarity);
      && data.symbol == symbol
      && data.newsCount == |articles| <= NewsLimit
      && data.positiveNews == CountLabel(scores, Positive)
      && data.negativeNews == CountLabel(scores, Negative)
      && data.neutralNews == CountLabel(scores, Neutral)
      && data.newsSentimentScore == AverageScore(scores)
      && data.sentimentLabel == Classify(data.newsSentimentScore)
      && data.topHeadlines == Titles(Prefix(articles, HeadlineCount))
    ensures data.positiveNews + data.negativeNews + data.neutralNews == data.newsCount
    ensures PolarityInRange(FetchNews(feeds, NewsLimit), polarity) ==> -1.0 <= data.newsSentimentScore <= 1.0
    ensures |data.topHeadlines| <= HeadlineCount && |data.topHeadlines| <= data.newsCount
    ensures data.newsCount == 0 ==> data == SentimentData(symbol, 0.0, Neutral, 0, 0, 0, 0, [])
  {
    var articles := FetchNews(feeds, NewsLimit);
    ghost var scores := Polarities(articles, polarity);
    CountsPartition(scores);
    if PolarityInRange(articles, polarity) {
      AverageBounds(scores);
    }
    if |articles| == 0 {
      data := SentimentData(symbol, 0.0, Neutral, 0, 0, 0, 0, []);
      return;
    }
    var sentiments, positiveCount, negativeCount, neutralCount := ScoreArticles(articles, Analyzer(polarity));
    var avgSentiment := Sum(sentiments) / (|sentiments| as real);
    assert avgSentiment == AverageScore(scores);
    var topHeadlines := Titles(Prefix(articles, HeadlineCount));
    data := SentimentData(symbol, avgSentiment, Classify(avgSentiment), |articles|,
                          positiveCount, negativeCount, neutralCount, topHeadlines);
  }
}
