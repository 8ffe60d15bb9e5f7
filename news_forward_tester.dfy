/**
 * The news forward tester's signal generation: keyword sentiment as the
 * fallback scorer, the mapping of a sentiment model's label and score onto
 * a signed score, and `generate_signals`, which groups headlines by symbol,
 * scores each symbol from its average sentiment and recent volume, and
 * returns the most confident signals first.
 *
 * The sentiment source is a parameter: `AnalyzeSentiment` shows how the
 * model's output (or its absence) becomes a sentiment, and
 * `GenerateSignals` takes any such scorer.
 */
module NewsForwardTester {
  import opened Wrappers
  import opened Series
  import opened Base

  datatype Label = Positive | Negative | Neutral

  /** The dictionary `analyze_sentiment` returns: score in [-1, 1], label, confidence. */
  datatype Sentiment = Sentiment(score: real, polarity: Label, confidence: real)

  // ------------------------------------------------------------ text helpers

  /** `str.lower()` on ASCII letters. */
  function LowerChar(c: char): char
  {
    if 'A' <= c <= 'Z' then (c as int + 32) as char else c
  }

  function Lower(s: string): (r: string)
    ensures |r| == |s|
    ensures forall i :: 0 <= i < |r| ==> !('A' <= r[i] <= 'Z')
  {
    seq(|s|, i requires 0 <= i < |s| => LowerChar(s[i]))
  }

  /** `word` occurs in `text` starting at position `i`. */
  predicate OccursAt(text: string, word: string, i: int)
  {
    0 <= i <= |text| - |word| && text[i..i + |word|] == word
  }

  /** Python's `word in text` on strings: `word` occurs as a contiguous substring. */
  predicate Contains(text: string, word: string)
  {
    exists i :: 0 <= i <= |text| - |word| && OccursAt(text, word, i)
  }

  // ------------------------------------------------------- keyword sentiment

  const PositiveKeywords: seq<string> :=
    ["gain", "surge", "rally", "up", "high", "profit", "growth",
     "beat", "outperform", "bullish", "upgrade", "strong"]

  const NegativeKeywords: seq<string> :=
    ["loss", "drop", "fall", "down", "low", "miss", "decline",
     "weak", "underperform", "bearish", "downgrade", "cut"]

  /**
   * `sum(1 for word in keywords if word in text)`: how many of the keywords
   * occur in the text, each counted at most once however often it occurs.
   */
  function Hits(keywords: seq<string>, text: string): (h: nat)
    ensures h <= |keywords|
    ensures h == 0 <==> forall i :: 0 <= i < |keywords| ==> !Contains(text, keywords[i])
    ensures h == |keywords| <==> forall i :: 0 <= i < |keywords| ==> Contains(text, keywords[i])
  {
    if keywords == [] then 0
    else
      var init := keywords[..|keywords| - 1];
      assert forall i :: 0 <= i < |init| ==> init[i] == keywords[i];
      Hits(init, text) + (if Contains(text, keywords[|keywords| - 1]) then 1 else 0)
  }

  /** Keywords may overlap: "upgrade" is a hit for both "up" and "upgrade". */
  lemma OverlappingKeywordsBothCount()
    ensures Hits(["up", "upgrade"], Lower("Analyst UPGRADE")) == 2
  {
    var t := Lower("Analyst UPGRADE");
    assert t == "analyst upgrade";
    assert OccursAt(t, "up", 8);
    assert OccursAt(t, "upgrade", 8);
    assert ["up", "upgrade"][..1] == ["up"];
  }

  /** The label thresholds shared by the keyword scorer and the per-symbol aggregate. */
  function Classify(score: real): Label
  {
    if score > 0.2 then Positive else if score < -0.2 then Negative else Neutral
  }

  /** A difference over a positive total no smaller than it in magnitude lies in [-1, 1], with its sign. */
  lemma ShareBounds(diff: int, total: nat, share: real)
    requires total > 0 && -(total as int) <= diff <= total && share == diff as real / total as real
    ensures share * total as real == diff as real
    ensures -1.0 <= share <= 1.0
    ensures (share > 0.0 <==> diff > 0) && (share < 0.0 <==> diff < 0)
  {
    assert share * total as real == diff as real;
  }

  /**
   * The keyword score from the hit counts: no hit gives a neutral 0 with
   * confidence 0.5; otherwise the balance (pos − neg)/(pos + neg), labelled
   * by the ±0.2 thresholds, with confidence |score| + 0.5 capped at 1.
   */
  function Balance(positiveCount: nat, negativeCount: nat): (r: Sentiment)
    ensures positiveCount + negativeCount == 0 ==> r == Sentiment(0.0, Neutral, 0.5)
    ensures positiveCount + negativeCount > 0 ==>
              r.score * (positiveCount + negativeCount) as real == (positiveCount - negativeCount) as real
    ensures (r.score > 0.0 <==> positiveCount > negativeCount) && (r.score < 0.0 <==> positiveCount < negativeCount)
    ensures -1.0 <= r.score <= 1.0 && 0.5 <= r.confidence <= 1.0
    ensures r.polarity == Classify(r.score)
  {
    var total := positiveCount + negativeCount;
    if total == 0 then Sentiment(0.0, Neutral, 0.5)
    else
      var score := (positiveCount - negativeCount) as real / total as real;
      ShareBounds(positiveCount - negativeCount, total, score);
      Sentiment(score, Classify(score), MinReal(Abs(score) + 0.5, 1.0))
  }

  /** `_fallback_sentiment`: the keyword score of the lower-cased text. */
  function FallbackSentiment(text: string): (r: Sentiment)
    ensures var t := Lower(text);
            r == Balance(Hits(PositiveKeywords, t), Hits(NegativeKeywords, t))
  {
    var textLower := Lower(text);
    Balance(Hits(PositiveKeywords, textLower), Hits(NegativeKeywords, textLower))
  }

  /** Only positive hits give the full score of 1, a positive label and full confidence. */
  lemma OnlyPositiveHits(positiveCount: nat, negativeCount: nat)
    requires negativeCount == 0 && positiveCount > 0
    ensures Balance(positiveCount, negativeCount) == Sentiment(1.0, Positive, 1.0)
  {
    assert Balance(positiveCount, negativeCount).score * positiveCount as real == positiveCount as real;
  }

  // ---------------------------------------------------------- model output

  /** The sign of a score as a label. */
  function SignLabel(score: real): Label
  {
    if score > 0.0 then Positive else if score < 0.0 then Negative else Neutral
  }

  /**
   * The mapping in `analyze_sentiment` of the model's top label and score:
   * a label mentioning "positive" (or `label_2`) keeps the score, one
   * mentioning "negative" (or `label_0`) negates it, anything else is 0; the
   * label follows the sign and the confidence is the model's score.
   */
  function MapModelOutput(modelLabel: string, score: real): (r: Sentiment)
    ensures var l := Lower(modelLabel);
            ((Contains(l, "positive") || l == "label_2") ==> r.score == score) &&
            (!(Contains(l, "positive") || l == "label_2") && (Contains(l, "negative") || l == "label_0") ==> r.score == -score) &&
            (!(Contains(l, "positive") || l == "label_2") && !(Contains(l, "negative") || l == "label_0") ==> r.score == 0.0)
    ensures Abs(r.score) <= Abs(score) && r.confidence == Abs(score) && r.confidence >= 0.0
    ensures (r.polarity == Positive <==> r.score > 0.0) && (r.polarity == Negative <==> r.score < 0.0)
  {
    var l := Lower(modelLabel);
    var sentimentScore :=
      if Contains(l, "positive") || l == "label_2" then score
      else if Contains(l, "negative") || l == "label_0" then -score
      else 0.0;
    Sentiment(sentimentScore, SignLabel(sentimentScore), Abs(score))
  }

  /** Label matching ignores case, and the three-class label names map by position. */
  lemma ModelLabels()
    ensures MapModelOutput("POSITIVE", 0.7) == Sentiment(0.7, Positive, 0.7)
    ensures MapModelOutput("LABEL_0", 0.8) == Sentiment(-0.8, Negative, 0.8)
    ensures MapModelOutput("LABEL_2", 0.9) == Sentiment(0.9, Positive, 0.9)
    ensures MapModelOutput("neutral", 0.95) == Sentiment(0.0, Neutral, 0.95)
  {
    assert Lower("POSITIVE") == "positive";
    assert OccursAt("positive", "positive", 0);
    assert Lower("LABEL_0") == "label_0";
    assert Lower("LABEL_2") == "label_2";
    assert Lower("neutral") == "neutral";
  }

  /**
   * `analyze_sentiment`: without a model, or when the model fails, the
   * keyword fallback; otherwise the mapped model output.
   */
  function AnalyzeSentiment(modelOutput: Option<(string, real)>, text: string): (r: Sentiment)
    ensures modelOutput.None? ==> r == FallbackSentiment(text)
    ensures modelOutput.Some? ==> r.confidence == Abs(modelOutput.value.1) && Abs(r.score) <= Abs(modelOutput.value.1)
  {
    match modelOutput
    case None => FallbackSentiment(text)
    case Some((modelLabel, score)) => MapModelOutput(modelLabel, score)
  }

  // ------------------------------------------------------------ signals

  /** A news item: `item.get('symbol')` and `item.get('headline', '')`. */
  datatype NewsItem = NewsItem(symbol: Option<string>, headline: Option<string>)

  /** `NewsSignal`, without the generation time and the reason text. */
  datatype NewsSignal = NewsSignal(
    symbol: string,
    sentimentScore: real,
    sentimentLabel: Label,
    newsCount: nat,
    volumeScore: real,
    action: Action,
    confidence: real)

  /** The symbol an item is grouped under, when it is truthy (present and non-empty). */
  predicate HasSymbol(item: NewsItem)
  {
    item.symbol.Some? && |item.symbol.value| > 0
  }

  /** The distinct symbols of the items, in order of first appearance (the dict's key order). */
  function Symbols(news: seq<NewsItem>): (syms: seq<string>)
    ensures forall s :: s in syms <==> exists i :: 0 <= i < |news| && HasSymbol(news[i]) && news[i].symbol.value == s
    ensures forall i, j :: 0 <= i < j < |syms| ==> syms[i] != syms[j]
  {
    if news == [] then []
    else
      var init := news[..|news| - 1];
      var item := news[|news| - 1];
      var prev := Symbols(init);
      assert forall i :: 0 <= i < |init| ==> init[i] == news[i];
      if HasSymbol(item) && item.symbol.value !in prev then prev + [item.symbol.value] else prev
  }

  /** The items grouped under `symbol`, in their original order. */
  function ItemsFor(news: seq<NewsItem>, symbol: string): (items: seq<NewsItem>)
    ensures |items| <= |news|
    ensures forall k :: 0 <= k < |items| ==> items[k].symbol == Some(symbol)
  {
    if news == [] then []
    else
      var item := news[|news| - 1];
      var prev := ItemsFor(news[..|news| - 1], symbol);
      if item.symbol == Some(symbol) then prev + [item] else prev
  }

  /** Every listed symbol has at least one item. */
  lemma {:induction false} SymbolsHaveItems(news: seq<NewsItem>, symbol: string)
    requires symbol in Symbols(news)
    ensures |ItemsFor(news, symbol)| > 0
  {
    var init := news[..|news| - 1];
    if symbol in Symbols(init) {
      SymbolsHaveItems(init, symbol);
    }
  }

  /** `market_data[symbol]['volume']` when the symbol has data with a volume column. */
  function VolumesOf(market: map<string, Option<seq<real>>>, symbol: string): Option<seq<real>>
  {
    if symbol in market then market[symbol] else None
  }

  /**
   * `volume_score`: with more than 20 rows of volume, the mean of the last 5
   * over the mean of the last 20 (1.0 when that mean is not positive);
   * otherwise 1.0.
   */
  function VolumeScore(volumes: Option<seq<real>>): (v: real)
    ensures volumes.None? || |volumes.value| <= 20 ==> v == 1.0
    ensures volumes.Some? && |volumes.value| > 20 ==>
              var vs := volumes.value;
              var avg := Mean(vs[|vs| - 20..]);
              (avg <= 0.0 ==> v == 1.0) && (avg > 0.0 ==> v * avg == Mean(vs[|vs| - 5..]))
  {
    if volumes.Some? && |volumes.value| > 20 then
      var vs := volumes.value;
      var recentVolume := Mean(vs[|vs| - 5..]);
      var avgVolume := Mean(vs[|vs| - 20..]);
      if avgVolume > 0.0 then
        var v := recentVolume / avgVolume;
        assert v * avgVolume == recentVolume;
        v
      else 1.0
    else 1.0
  }

  /** The action and its confidence. */
  datatype Decision = Decision(action: Action, confidence: real)

  /**
   * The action rules: buy needs a sentiment above 0.3 and a volume score
   * above 1.2; otherwise sell below −0.3; otherwise hold at 0.5.
   */
  function Decide(avgScore: real, volumeScore: real, avgConfidence: real): (d: Decision)
    ensures d.action == Buy <==> avgScore > 0.3 && volumeScore > 1.2
    ensures d.action == Sell <==> !(avgScore > 0.3 && volumeScore > 1.2) && avgScore < -0.3
    ensures d.action == Hold ==> d.confidence == 0.5
    ensures d.confidence <= 1.0
    ensures d.action == Buy ==> d.confidence > 0.25
    ensures d.action == Sell && avgConfidence >= 0.0 ==> d.confidence >= 0.0
  {
    if avgScore > 0.3 && volumeScore > 1.2 then
      Decision(Buy, MinReal((Abs(avgScore) + volumeScore - 1.0) / 2.0, 1.0))
    else if avgScore < -0.3 then
      Decision(Sell, MinReal(Abs(avgScore) * avgConfidence, 1.0))
    else
      Decision(Hold, 0.5)
  }

  /** The signal for one symbol from its items, its market data and a sentiment scorer. */
  function ScoreSymbol(symbol: string, items: seq<NewsItem>, volumes: Option<seq<real>>, analyze: string -> Sentiment): (r: NewsSignal)
    requires |items| > 0
    ensures r.symbol == symbol && r.newsCount == |items|
    ensures r.sentimentLabel == Classify(r.sentimentScore)
    ensures r.volumeScore == VolumeScore(volumes)
    ensures r.confidence <= 1.0
    ensures r.action == Buy ==> r.volumeScore > 1.2 && r.sentimentScore > 0.3
    ensures r.action == Sell ==> r.sentimentScore < -0.3
  {
    var avgScore := Mean(Scores(items, analyze));
    var avgConfidence := Mean(Confidences(items, analyze));
    var volumeScore := VolumeScore(volumes);
    var d := Decide(avgScore, volumeScore, avgConfidence);
    NewsSignal(symbol, avgScore, Classify(avgScore), |items|, volumeScore, d.action, d.confidence)
  }

  /** With a scorer whose scores lie in [-1, 1], the symbol's average sentiment does too. */
  lemma ScoreSymbolBounded(symbol: string, items: seq<NewsItem>, volumes: Option<seq<real>>, analyze: string -> Sentiment)
    requires |items| > 0
    requires forall k :: 0 <= k < |items| ==> -1.0 <= analyze(Headline(items[k])).score <= 1.0
    ensures -1.0 <= ScoreSymbol(symbol, items, volumes, analyze).sentimentScore <= 1.0
  {
    MeanBounds(Scores(items, analyze), -1.0, 1.0);
  }

  /** The scores of the items' headlines, in order. */
  function Scores(items: seq<NewsItem>, analyze: string -> Sentiment): (s: seq<real>)
    ensures |s| == |items|
    ensures forall k :: 0 <= k < |items| ==> s[k] == analyze(Headline(items[k])).score
  {
    seq(|items|, k requires 0 <= k < |items| => analyze(Headline(items[k])).score)
  }

  /** The confidences of the items' headlines, in order. */
  function Confidences(items: seq<NewsItem>, analyze: string -> Sentiment): (s: seq<real>)
    ensures |s| == |items|
  {
    seq(|items|, k requires 0 <= k < |items| => analyze(Headline(items[k])).confidence)
  }

  /** `item.get('headline', '')`. */
  function Headline(item: NewsItem): string
  {
    if item.headline.Some? then item.headline.value else ""
  }

  /** One signal per symbol, in first-appearance order, before sorting. */
  function Scored(news: seq<NewsItem>, market: map<string, Option<seq<real>>>, analyze: string -> Sentiment): (r: seq<NewsSignal>)
    ensures |r| == |Symbols(news)|
  {
    var syms := Symbols(news);
    seq(|syms|, k requires 0 <= k < |syms| =>
      SymbolsHaveItems(news, syms[k]);
      ScoreSymbol(syms[k], ItemsFor(news, syms[k]), VolumesOf(market, syms[k]), analyze))
  }

  // ------------------------------------------------------------- sorting

  predicate SortedByConfidence(s: seq<NewsSignal>)
  {
    forall i, j :: 0 <= i < j < |s| ==> s[i].confidence >= s[j].confidence
  }

  /** The signals with exactly confidence `c`, in their order. */
  function WithConfidence(s: seq<NewsSignal>, c: real): seq<NewsSignal>
  {
    if s == [] then []
    else WithConfidence(s[..|s| - 1], c) + (if s[|s| - 1].confidence == c then [s[|s| - 1]] else [])
  }

  /** Insert `x` after every leading element at least as confident. */
  function Insert(x: NewsSignal, s: seq<NewsSignal>): (r: seq<NewsSignal>)
    ensures multiset(r) == multiset(s) + multiset{x}
    ensures |r| == |s| + 1
  {
    if s == [] then [x]
    else if s[0].confidence >= x.confidence then
      assert s == [s[0]] + s[1..];
      [s[0]] + Insert(x, s[1..])
    else [x] + s
  }

  /** Inserting into a sorted sequence keeps it sorted. */
  lemma {:induction false} InsertSorted(x: NewsSignal, s: seq<NewsSignal>)
    requires SortedByConfidence(s)
    ensures SortedByConfidence(Insert(x, s))
  {
    if s != [] && s[0].confidence >= x.confidence {
      var rest := Insert(x, s[1..]);
      InsertSorted(x, s[1..]);
      forall k | 0 <= k < |rest|
        ensures rest[k].confidence <= s[0].confidence
      {
        assert rest[k] in multiset(rest);
        assert rest[k] == x || rest[k] in multiset(s[1..]);
      }
    }
  }

  /** `list.sort(key=confidence, reverse=True)`: a stable sort, most confident first. */
  function SortByConfidence(s: seq<NewsSignal>): (r: seq<NewsSignal>)
    ensures multiset(r) == multiset(s) && |r| == |s|
  {
    if s == [] then []
    else
      var init := s[..|s| - 1];
      assert s == init + [s[|s| - 1]];
      Insert(s[|s| - 1], SortByConfidence(init))
  }

  /** The sort's result is ordered by confidence, highest first. */
  lemma {:induction false} SortSorted(s: seq<NewsSignal>)
    ensures SortedByConfidence(SortByConfidence(s))
  {
    if s != [] {
      var init := s[..|s| - 1];
      SortSorted(init);
      InsertSorted(s[|s| - 1], SortByConfidence(init));
    }
  }

  lemma {:induction false} WithConfidenceAppend(a: seq<NewsSignal>, b: seq<NewsSignal>, c: real)
    ensures WithConfidence(a + b, c) == WithConfidence(a, c) + WithConfidence(b, c)
  {
    if b == [] {
      assert a + b == a;
    } else {
      var ab := a + b;
      assert ab[..|ab| - 1] == a + b[..|b| - 1];
      WithConfidenceAppend(a, b[..|b| - 1], c);
    }
  }

  /** When every element is less confident than `c`, none has confidence `c`. */
  lemma {:induction false} NoneAtConfidence(s: seq<NewsSignal>, c: real)
    requires forall i :: 0 <= i < |s| ==> s[i].confidence < c
    ensures WithConfidence(s, c) == []
  {
    if s != [] {
      NoneAtConfidence(s[..|s| - 1], c);
    }
  }

  /** The confidence-`c` elements of a one-element sequence. */
  lemma WithConfidenceSingle(x: NewsSignal, c: real)
    ensures WithConfidence([x], c) == if x.confidence == c then [x] else []
  {
    assert [x][..0] == [];
  }

  /** Placing `x` in front of a sorted sequence whose head is less confident adds `x` at the end of its group. */
  lemma InsertInFront(x: NewsSignal, s: seq<NewsSignal>, c: real)
    requires SortedByConfidence(s) && s != [] && s[0].confidence < x.confidence
    ensures WithConfidence([x] + s, c) == WithConfidence(s, c) + (if x.confidence == c then [x] else [])
  {
    WithConfidenceAppend([x], s, c);
    WithConfidenceSingle(x, c);
    if x.confidence == c {
      assert forall i :: 0 <= i < |s| ==> s[i].confidence <= s[0].confidence;
      NoneAtConfidence(s, c);
    }
  }

  /** The tail of a sorted sequence is sorted. */
  lemma SortedTail(s: seq<NewsSignal>)
    requires SortedByConfidence(s) && s != []
    ensures SortedByConfidence(s[1..])
  {
    var rest := s[1..];
    forall i, j | 0 <= i < j < |rest| ensures rest[i].confidence >= rest[j].confidence {
      assert rest[i] == s[i + 1] && rest[j] == s[j + 1];
    }
  }

  /** Inserting into a sorted sequence puts `x` after the elements of equal confidence. */
  lemma {:induction false} InsertAfterEquals(x: NewsSignal, s: seq<NewsSignal>, c: real)
    requires SortedByConfidence(s)
    ensures WithConfidence(Insert(x, s), c) == WithConfidence(s, c) + (if x.confidence == c then [x] else [])
  {
    if s == [] {
      assert Insert(x, s) == [x];
      WithConfidenceSingle(x, c);
    } else if s[0].confidence >= x.confidence {
      var rest := s[1..];
      assert s == [s[0]] + rest;
      SortedTail(s);
      InsertAfterEquals(x, rest, c);
      assert Insert(x, s) == [s[0]] + Insert(x, rest);
      WithConfidenceAppend([s[0]], Insert(x, rest), c);
      WithConfidenceAppend([s[0]], rest, c);
    } else {
      assert Insert(x, s) == [x] + s;
      InsertInFront(x, s, c);
    }
  }

  /**
   * Stability: for every confidence value, the signals with that value keep
   * their original relative order.
   */
  lemma {:induction false} SortIsStable(s: seq<NewsSignal>, c: real)
    ensures WithConfidence(SortByConfidence(s), c) == WithConfidence(s, c)
  {
    if s != [] {
      var init := s[..|s| - 1];
      SortIsStable(init, c);
      SortSorted(init);
      InsertAfterEquals(s[|s| - 1], SortByConfidence(init), c);
    }
  }

  /** No two signals are for the same symbol. */
  predicate DistinctSymbols(s: seq<NewsSignal>)
  {
    forall i, j :: 0 <= i < j < |s| ==> s[i].symbol != s[j].symbol
  }

  /** Inserting a signal for a new symbol keeps the symbols distinct. */
  lemma {:induction false} InsertDistinct(x: NewsSignal, s: seq<NewsSignal>)
    requires DistinctSymbols(s) && forall k :: 0 <= k < |s| ==> s[k].symbol != x.symbol
    ensures DistinctSymbols(Insert(x, s))
  {
    if s != [] && s[0].confidence >= x.confidence {
      var rest := Insert(x, s[1..]);
      InsertDistinct(x, s[1..]);
      forall k | 0 <= k < |rest|
        ensures rest[k].symbol != s[0].symbol
      {
        assert rest[k] in multiset(rest);
        assert rest[k] == x || rest[k] in multiset(s[1..]);
      }
    }
  }

  /** Sorting keeps the symbols distinct. */
  lemma {:induction false} SortDistinct(s: seq<NewsSignal>)
    requires DistinctSymbols(s)
    ensures DistinctSymbols(SortByConfidence(s))
  {
    if s != [] {
      var init := s[..|s| - 1];
      var sorted := SortByConfidence(init);
      SortDistinct(init);
      forall k | 0 <= k < |sorted|
        ensures sorted[k].symbol != s[|s| - 1].symbol
      {
        assert sorted[k] in multiset(init);
      }
      InsertDistinct(s[|s| - 1], sorted);
    }
  }

  /** Python's `s[:n]`, where a negative `n` counts from the end. */
  function SliceTo<T>(s: seq<T>, n: int): (r: seq<T>)
    ensures n >= 0 ==> |r| == if n < |s| then n else |s|
    ensures n < 0 ==> |r| == if -n < |s| then |s| + n else 0
    ensures r == s[..|r|]
  {
    if n >= 0 then (if n < |s| then s[..n] else s)
    else if -n < |s| then s[..|s| + n] else []
  }

  // ------------------------------------------------------------- signals

  /** What `generate_signals` returns. */
  function NewsSignals(news: seq<NewsItem>, market: map<string, Option<seq<real>>>, topN: int, analyze: string -> Sentiment): seq<NewsSignal>
  {
    SliceTo(SortByConfidence(Scored(news, market, analyze)), topN * 2)
  }

  /** Adding one item to the grouped items. */
  lemma ItemsForNext(news: seq<NewsItem>, i: int, symbol: string)
    requires 0 <= i < |news|
    ensures ItemsFor(news[..i + 1], symbol) ==
            ItemsFor(news[..i], symbol) + (if news[i].symbol == Some(symbol) then [news[i]] else [])
  {
    assert news[..i + 1][..i] == news[..i];
  }

  /** Adding one item to the first-appearance order. */
  lemma SymbolsNext(news: seq<NewsItem>, i: int)
    requires 0 <= i < |news|
    ensures Symbols(news[..i + 1]) ==
            Symbols(news[..i]) + (if HasSymbol(news[i]) && news[i].symbol.value !in Symbols(news[..i]) then [news[i].symbol.value] else [])
  {
    assert news[..i + 1][..i] == news[..i];
  }

  /** A symbol not yet seen has no items. */
  lemma {:induction false} NoItemsFor(news: seq<NewsItem>, symbol: string)
    requires symbol !in Symbols(news) && |symbol| > 0
    ensures ItemsFor(news, symbol) == []
  {
    if news != [] {
      NoItemsFor(news[..|news| - 1], symbol);
    }
  }

  /** One iteration of the grouping loop keeps each key's list equal to that symbol's items so far. */
  lemma GroupStep(news: seq<NewsItem>, i: int, before: map<string, seq<NewsItem>>, after: map<string, seq<NewsItem>>)
    requires 0 <= i < |news|
    requires forall s :: s in before <==> s in Symbols(news[..i])
    requires forall s :: s in before ==> |s| > 0
    requires forall s :: s in before ==> before[s] == ItemsFor(news[..i], s)
    requires !HasSymbol(news[i]) ==> after == before
    requires HasSymbol(news[i]) ==>
               var symbol := news[i].symbol.value;
               after == before[symbol := (if symbol in before then before[symbol] else []) + [news[i]]]
    ensures forall s :: s in after ==> |s| > 0
    ensures forall s :: s in after ==> after[s] == ItemsFor(news[..i + 1], s)
  {
    forall s | s in after
      ensures after[s] == ItemsFor(news[..i + 1], s)
    {
      ItemsForNext(news, i, s);
      if HasSymbol(news[i]) && s == news[i].symbol.value {
        if s !in before {
          NoItemsFor(news[..i], s);
        }
      } else {
        assert s in before && after[s] == before[s];
        assert news[i].symbol != Some(s);
      }
    }
  }

  /**
   * The first loop of `generate_signals`: the dict from each truthy symbol
   * to its items, whose keys, in insertion order, are the symbols in order of
   * first appearance.
   */
  method GroupBySymbol(news: seq<NewsItem>) returns (order: seq<string>, symbolNews: map<string, seq<NewsItem>>)
    ensures order == Symbols(news)
    ensures forall s :: s in symbolNews <==> s in order
    ensures forall s :: s in symbolNews ==> symbolNews[s] == ItemsFor(news, s)
  {
    order := [];
    symbolNews := map[];
    var i := 0;
    while i < |news|
      invariant 0 <= i <= |news|
      invariant order == Symbols(news[..i])
      invariant forall s :: s in symbolNews <==> s in order
      invariant forall s :: s in symbolNews ==> |s| > 0
      invariant forall s :: s in symbolNews ==> symbolNews[s] == ItemsFor(news[..i], s)
    {
      var item := news[i];
      ghost var before := symbolNews;
      SymbolsNext(news, i);
      if HasSymbol(item) {
        var symbol := item.symbol.value;
        if symbol !in symbolNews {
          symbolNews := symbolNews[symbol := []];
          order := order + [symbol];
        }
        symbolNews := symbolNews[symbol := symbolNews[symbol] + [item]];
      }
      GroupStep(news, i, before, symbolNews);
      i := i + 1;
    }
    assert news[..|news|] == news;
  }

  /**
   * `generate_signals`: group the items by symbol, score each group in key
   * order, sort by confidence and keep the first `top_n * 2`.
   */
  method GenerateSignals(news: seq<NewsItem>, market: map<string, Option<seq<real>>>, topN: int, analyze: string -> Sentiment)
    returns (signals: seq<NewsSignal>)
    ensures signals == NewsSignals(news, market, topN, analyze)
  {
    var order, symbolNews := GroupBySymbol(news);
    signals := [];
    var k := 0;
    while k < |order|
      invariant 0 <= k <= |order|
      invariant signals == Scored(news, market, analyze)[..k]
    {
      var symbol := order[k];
      SymbolsHaveItems(news, symbol);
      signals := signals + [ScoreSymbol(symbol, symbolNews[symbol], VolumesOf(market, symbol), analyze)];
      k := k + 1;
    }
    assert signals == Scored(news, market, analyze);
    signals := SortByConfidence(signals);
    signals := SliceTo(signals, topN * 2);
  }

  /**
   * Size and order of the result: most confident first, and `top_n * 2`
   * signals (all of them when there are fewer symbols) for a non-negative
   * `top_n`.
   */
  lemma SignalsSortedAndCounted(news: seq<NewsItem>, market: map<string, Option<seq<real>>>, topN: int, analyze: string -> Sentiment)
    ensures var r := NewsSignals(news, market, topN, analyze);
            var n := |Symbols(news)|;
            SortedByConfidence(r) &&
            (topN >= 0 ==> |r| == if topN * 2 < n then topN * 2 else n) &&
            |r| <= n
  {
    var sorted := SortByConfidence(Scored(news, market, analyze));
    SortSorted(Scored(news, market, analyze));
    var r := NewsSignals(news, market, topN, analyze);
    assert r == sorted[..|r|];
  }

  /**
   * Every returned signal is the score of a symbol that has news: it counts
   * that symbol's items, its confidence is at most 1, and it is never a buy
   * without a volume score above 1.2.
   */
  lemma SignalsAreScoredSymbols(news: seq<NewsItem>, market: map<string, Option<seq<real>>>, topN: int, analyze: string -> Sentiment)
    ensures var r := NewsSignals(news, market, topN, analyze);
            forall i :: 0 <= i < |r| ==>
              r[i].symbol in Symbols(news) && r[i].newsCount == |ItemsFor(news, r[i].symbol)| && r[i].newsCount > 0 &&
              r[i].confidence <= 1.0 && (r[i].action == Buy ==> r[i].volumeScore > 1.2)
  {
    var scored := Scored(news, market, analyze);
    var sorted := SortByConfidence(scored);
    var r := NewsSignals(news, market, topN, analyze);
    var syms := Symbols(news);
    assert r == sorted[..|r|];
    forall i | 0 <= i < |r|
      ensures r[i].symbol in syms && r[i].newsCount == |ItemsFor(news, r[i].symbol)| && r[i].newsCount > 0
      ensures r[i].confidence <= 1.0 && (r[i].action == Buy ==> r[i].volumeScore > 1.2)
    {
      assert r[i] == sorted[i];
      assert r[i] in multiset(scored);
      var k :| 0 <= k < |scored| && scored[k] == r[i];
      SymbolsHaveItems(news, syms[k]);
    }
  }

  /** No symbol appears twice among the returned signals. */
  lemma SignalsDistinct(news: seq<NewsItem>, market: map<string, Option<seq<real>>>, topN: int, analyze: string -> Sentiment)
    ensures DistinctSymbols(NewsSignals(news, market, topN, analyze))
  {
    var scored := Scored(news, market, analyze);
    var syms := Symbols(news);
    assert forall k :: 0 <= k < |scored| ==> scored[k].symbol == syms[k];
    SortDistinct(scored);
    var sorted := SortByConfidence(scored);
    var r := NewsSignals(news, market, topN, analyze);
    assert r == sorted[..|r|];
  }
}
