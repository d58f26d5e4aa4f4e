/**
  The "News Analysis" mode: the fetched article list is truncated to the
  slider's article count, each article is analysed into one record, and
  the records are reduced to the overview metrics (average sentiment,
  positive and negative article counts) and the "Most Positive" and
  "Most Negative" lists of three.

  The HTTP fetch is not modelled: its outcome is the input `newsData`.
 */
module News {
  import opened Stats
  import opened Sentiment

  datatype Option<T> = None | Some(value: T)

  /** A NewsAPI article, as far as the dashboard reads it. A missing
      (null) description is None. */
  datatype Article = Article(
    title: string,
    description: Option<string>,
    url: string,
    publishedAt: string)

  /** One row of the news data frame. `sentiment` holds the overall
      polarity of the article's text. */
  datatype NewsRecord = NewsRecord(
    title: string,
    sentiment: real,
    subjectivity: real,
    url: string,
    publishedAt: string)

  /** What the overview shows for one batch of articles. */
  datatype NewsSummary = NewsSummary(
    records: seq<NewsRecord>,
    averageSentiment: real,
    positiveCount: nat,
    negativeCount: nat,
    mostPositive: seq<NewsRecord>,
    mostNegative: seq<NewsRecord>)

  /** Bounds of the "Number of articles" slider. */
  const MinNewsCount: int := 5
  const MaxNewsCount: int := 50

  /** Length of the "Most Positive" and "Most Negative" lists. */
  const TopCount: nat := 3

  // ---------------------------------------------------------------------
  // Turning articles into records

  /** Python's slice `s[:n]` for n >= 0. */
  function Take<T>(s: seq<T>, n: nat): (r: seq<T>)
    ensures |r| == if n < |s| then n else |s|
    ensures r == s[..|r|]
  {
    if n < |s| then s[..n] else s
  }

  /** The analysed text `title + " " + (description or "")`: the title, one
      space, then the description, or nothing when there is none. */
  function ArticleText(a: Article): (t: string)
    ensures |a.title| < |t| && t[..|a.title|] == a.title && t[|a.title|] == ' '
    ensures a.description.None? ==> |t| == |a.title| + 1
    ensures a.description.Some? ==> t[|a.title| + 1..] == a.description.value
  {
    a.title + " " + match a.description case None => "" case Some(d) => d
  }

  /** The sentiments.append({...}) of one article: its title, url and
      publication time unchanged, and the overall scores of its text, which
      are 0 and 0 when the text has no sentences. */
  function RecordOf(a: Article, split: Splitter, score: Scorer): (r: NewsRecord)
    ensures r.title == a.title && r.url == a.url && r.publishedAt == a.publishedAt
    ensures r.sentiment == AnalyzeSentiment(ArticleText(a), split, score).overallPolarity
    ensures r.subjectivity == AnalyzeSentiment(ArticleText(a), split, score).overallSubjectivity
    ensures |split(ArticleText(a))| == 0 ==> r.sentiment == 0.0 && r.subjectivity == 0.0
  {
    var s := AnalyzeSentiment(ArticleText(a), split, score);
    NewsRecord(a.title, s.overallPolarity, s.overallSubjectivity, a.url, a.publishedAt)
  }

  /** The loop over the articles: one record per article, in article order,
      with the identity fields copied and the scores those of the article's
      title and description. */
  method AnalyzeArticles(articles: seq<Article>, split: Splitter, score: Scorer)
    returns (records: seq<NewsRecord>)
    ensures |records| == |articles|
    ensures forall i :: 0 <= i < |articles| ==>
              && records[i].title == articles[i].title
              && records[i].url == articles[i].url
              && records[i].publishedAt == articles[i].publishedAt
    ensures forall i :: 0 <= i < |articles| ==>
              var s := AnalyzeSentiment(ArticleText(articles[i]), split, score);
              records[i].sentiment == s.overallPolarity
              && records[i].subjectivity == s.overallSubjectivity
  {
    records := [];
    for i := 0 to |articles|
      invariant |records| == i
      invariant forall j :: 0 <= j < i ==> records[j] == RecordOf(articles[j], split, score)
    {
      records := records + [RecordOf(articles[i], split, score)];
    }
  }

  // ---------------------------------------------------------------------
  // The overview metrics

  /** The column `df['sentiment']`. */
  function Sentiments(rs: seq<NewsRecord>): (r: seq<real>)
    ensures |r| == |rs|
    ensures forall i :: 0 <= i < |r| ==> r[i] == rs[i].sentiment
  {
    seq(|rs|, i requires 0 <= i < |rs| => rs[i].sentiment)
  }

  /** `df['sentiment'].mean()` of a non-empty frame. */
  function AverageSentiment(rs: seq<NewsRecord>): (m: real)
    requires |rs| > 0
    ensures m * (|rs| as real) == Sum(Sentiments(rs))
  {
    Mean(Sentiments(rs))
  }

  /** A boolean row filter `df[mask]`: the rows satisfying `p`. */
  function Filter(rs: seq<NewsRecord>, p: NewsRecord -> bool): (r: seq<NewsRecord>)
    ensures |r| <= |rs|
    ensures forall x :: multiset(r)[x] == if p(x) then multiset(rs)[x] else 0
  {
    if |rs| == 0 then []
    else
      assert rs == [rs[0]] + rs[1..];
      if p(rs[0]) then [rs[0]] + Filter(rs[1..], p) else Filter(rs[1..], p)
  }

  /** The masks `df['sentiment'] > 0`, `df['sentiment'] < 0` and the
      remaining rows, whose sentiment is exactly 0. */
  predicate IsPositive(x: NewsRecord) { x.sentiment > 0.0 }
  predicate IsNegative(x: NewsRecord) { x.sentiment < 0.0 }
  predicate IsNeutral(x: NewsRecord) { x.sentiment == 0.0 }

  /** `df[df['sentiment'] > 0]`: every occurrence of a strictly positive
      row, and nothing else. */
  function Positives(rs: seq<NewsRecord>): (r: seq<NewsRecord>)
    ensures forall x :: multiset(r)[x] == if x.sentiment > 0.0 then multiset(rs)[x] else 0
  {
    Filter(rs, IsPositive)
  }

  /** `df[df['sentiment'] < 0]`: every occurrence of a strictly negative
      row, and nothing else. */
  function Negatives(rs: seq<NewsRecord>): (r: seq<NewsRecord>)
    ensures forall x :: multiset(r)[x] == if x.sentiment < 0.0 then multiset(rs)[x] else 0
  {
    Filter(rs, IsNegative)
  }

  /** The rows counted in neither metric. */
  function Neutrals(rs: seq<NewsRecord>): seq<NewsRecord>
  {
    Filter(rs, IsNeutral)
  }

  /** Every record is exactly one of positive, negative or neutral, so the
      two counts together never exceed the number of records. */
  lemma {:induction false} CountsPartition(rs: seq<NewsRecord>)
    ensures |Positives(rs)| + |Negatives(rs)| + |Neutrals(rs)| == |rs|
    ensures |Positives(rs)| + |Negatives(rs)| <= |rs|
  {
    if |rs| > 0 {
      CountsPartition(rs[1..]);
    }
  }

  /** Every record's sentiment lies in the polarity range [-1, 1]. */
  predicate SentimentsInRange(rs: seq<NewsRecord>)
  {
    forall i :: 0 <= i < |rs| ==> -1.0 <= rs[i].sentiment <= 1.0
  }

  /** The average of records whose sentiments all lie in [-1, 1] lies in
      [-1, 1]. */
  lemma AverageInRange(rs: seq<NewsRecord>)
    requires |rs| > 0
    ensures SentimentsInRange(rs) ==> -1.0 <= AverageSentiment(rs) <= 1.0
  {
    if SentimentsInRange(rs) {
      MeanBounds(Sentiments(rs), -1.0, 1.0);
    }
  }

  /** A positive average needs at least one positive article, and a
      negative average at least one negative article. */
  lemma AverageSignHasWitness(rs: seq<NewsRecord>)
    requires |rs| > 0
    ensures AverageSentiment(rs) > 0.0 ==> |Positives(rs)| > 0
    ensures AverageSentiment(rs) < 0.0 ==> |Negatives(rs)| > 0
  {
    if |Positives(rs)| == 0 {
      forall i | 0 <= i < |rs| ensures rs[i].sentiment <= 0.0 {
        assert rs[i] in multiset(rs);
        assert multiset(Positives(rs))[rs[i]] == 0;
      }
      MeanAtMost(Sentiments(rs), 0.0);
    }
    if |Negatives(rs)| == 0 {
      forall i | 0 <= i < |rs| ensures rs[i].sentiment >= 0.0 {
        assert rs[i] in multiset(rs);
        assert multiset(Negatives(rs))[rs[i]] == 0;
      }
      MeanAtLeast(Sentiments(rs), 0.0);
    }
  }

  // ---------------------------------------------------------------------
  // nlargest / nsmallest

  /** Which end of the sentiment order a top-k list is taken from. */
  datatype Extreme = Largest | Smallest

  /** The sort key: larger keys come first. */
  function Key(e: Extreme, x: NewsRecord): real
  {
    if e == Largest then x.sentiment else -x.sentiment
  }

  /** Non-increasing by key. */
  ghost predicate SortedBy(e: Extreme, rs: seq<NewsRecord>)
  {
    forall i, j :: 0 <= i < j < |rs| ==> Key(e, rs[i]) >= Key(e, rs[j])
  }

  /** Putting an element no smaller than the head in front of a sorted
      sequence keeps it sorted. */
  lemma ConsSorted(e: Extreme, h: NewsRecord, t: seq<NewsRecord>)
    requires SortedBy(e, t)
    requires |t| > 0 ==> Key(e, h) >= Key(e, t[0])
    ensures SortedBy(e, [h] + t)
  {
  }

  /** Inserts `x` into a key-sorted sequence, before the first element it
      is not below. The result starts with `x` or with the old first element. */
  function Insert(e: Extreme, x: NewsRecord, rs: seq<NewsRecord>): (r: seq<NewsRecord>)
    requires SortedBy(e, rs)
    ensures |r| == |rs| + 1
    ensures multiset(r) == multiset(rs) + multiset{x}
    ensures SortedBy(e, r)
    ensures r[0] == x || (|rs| > 0 && r[0] == rs[0])
  {
    if |rs| == 0 then [x]
    else if Key(e, x) >= Key(e, rs[0]) then
      ConsSorted(e, x, rs);
      [x] + rs
    else
      assert rs == [rs[0]] + rs[1..];
      var tail := Insert(e, x, rs[1..]);
      ConsSorted(e, rs[0], tail);
      [rs[0]] + tail
  }

  /** Insertion sort by key, non-increasing. */
  function SortBy(e: Extreme, rs: seq<NewsRecord>): (r: seq<NewsRecord>)
    ensures |r| == |rs|
    ensures multiset(r) == multiset(rs)
    ensures SortedBy(e, r)
  {
    if |rs| == 0 then []
    else
      assert rs == [rs[0]] + rs[1..];
      Insert(e, rs[0], SortBy(e, rs[1..]))
  }

  /** A prefix of a sorted permutation of `rs` is drawn from `rs`, is
      sorted, and outranks whatever it leaves out. */
  lemma PrefixDominates(e: Extreme, rs: seq<NewsRecord>, s: seq<NewsRecord>, n: nat)
    requires SortedBy(e, s) && multiset(s) == multiset(rs)
    requires n <= |s|
    ensures multiset(s[..n]) <= multiset(rs)
    ensures SortedBy(e, s[..n])
    ensures forall x, i :: x in multiset(rs) - multiset(s[..n]) && 0 <= i < n ==>
              Key(e, x) <= Key(e, s[..n][i])
  {
    var kept, dropped := s[..n], s[n..];
    assert s == kept + dropped;
    assert multiset(rs) == multiset(kept) + multiset(dropped);
    forall x, i | x in multiset(rs) - multiset(kept) && 0 <= i < n
      ensures Key(e, x) <= Key(e, kept[i])
    {
      assert multiset(dropped)[x] > 0;
      var j :| 0 <= j < |dropped| && dropped[j] == x;
      assert s[n + j] == x && kept[i] == s[i];
    }
  }

  /** The first min(k, |rs|) records by key: drawn from `rs`, sorted, and
      no record left out has a larger key than any record kept. */
  function Extremes(e: Extreme, rs: seq<NewsRecord>, k: nat): (r: seq<NewsRecord>)
    ensures |r| == if k < |rs| then k else |rs|
    ensures multiset(r) <= multiset(rs)
    ensures SortedBy(e, r)
    ensures forall x, i :: x in multiset(rs) - multiset(r) && 0 <= i < |r| ==>
              Key(e, x) <= Key(e, r[i])
  {
    var sorted := SortBy(e, rs);
    var n := if k < |rs| then k else |rs|;
    PrefixDominates(e, rs, sorted, n);
    sorted[..n]
  }

  /** `df.nlargest(k, 'sentiment')`: min(k, |rs|) records of `rs`, in
      non-increasing sentiment, none outranked by a record left out. */
  function NLargest(rs: seq<NewsRecord>, k: nat): (r: seq<NewsRecord>)
    ensures |r| == if k < |rs| then k else |rs|
    ensures multiset(r) <= multiset(rs)
    ensures forall i, j :: 0 <= i < j < |r| ==> r[i].sentiment >= r[j].sentiment
    ensures forall x, i :: x in multiset(rs) - multiset(r) && 0 <= i < |r| ==>
              x.sentiment <= r[i].sentiment
  {
    var r := Extremes(Largest, rs, k);
    assert forall x :: Key(Largest, x) == x.sentiment;
    r
  }

  /** `df.nsmallest(k, 'sentiment')`: min(k, |rs|) records of `rs`, in
      non-decreasing sentiment, none undercut by a record left out. */
  function NSmallest(rs: seq<NewsRecord>, k: nat): (r: seq<NewsRecord>)
    ensures |r| == if k < |rs| then k else |rs|
    ensures multiset(r) <= multiset(rs)
    ensures forall i, j :: 0 <= i < j < |r| ==> r[i].sentiment <= r[j].sentiment
    ensures forall x, i :: x in multiset(rs) - multiset(r) && 0 <= i < |r| ==>
              x.sentiment >= r[i].sentiment
  {
    var r := Extremes(Smallest, rs, k);
    assert forall x :: Key(Smallest, x) == -x.sentiment;
    r
  }

  /** When there are no more records than requested, both lists hold
      every record (in some sorted order). */
  lemma FewRecordsAllKept(rs: seq<NewsRecord>, k: nat)
    requires |rs| <= k
    ensures multiset(NLargest(rs, k)) == multiset(rs)
    ensures multiset(NSmallest(rs, k)) == multiset(rs)
  {
    var up, down := SortBy(Largest, rs), SortBy(Smallest, rs);
    assert up[..|rs|] == up;
    assert down[..|rs|] == down;
  }

  /** Three rows of sentiment 0.9, -0.5 and 0 count as one positive and
      one negative article. */
  lemma ThreeRecordCounts(a: NewsRecord, b: NewsRecord, c: NewsRecord)
    requires a.sentiment == 0.9 && b.sentiment == -0.5 && c.sentiment == 0.0
    ensures |Positives([a, b, c])| == 1
    ensures |Negatives([a, b, c])| == 1
  {
    var rs := [a, b, c];
    assert rs[1..] == [b, c] && rs[1..][1..] == [c] && rs[1..][1..][1..] == [];
    assert Filter([c], IsPositive) == [] && Filter([c], IsNegative) == [];
    assert Filter([b, c], IsPositive) == [];
    assert Filter([b, c], IsNegative) == [b];
    assert Filter(rs, IsPositive) == [a];
    assert Filter(rs, IsNegative) == [b];
  }

  /** Of those three rows, the single most positive is the 0.9 row: the
      contract of NLargest alone forces this. */
  lemma ThreeRecordMostPositive(a: NewsRecord, b: NewsRecord, c: NewsRecord)
    requires a.sentiment == 0.9 && b.sentiment == -0.5 && c.sentiment == 0.0
    ensures NLargest([a, b, c], 1) == [a]
  {
  }

  /** And the single most negative is the -0.5 row, by the contract of
      NSmallest alone. */
  lemma ThreeRecordMostNegative(a: NewsRecord, b: NewsRecord, c: NewsRecord)
    requires a.sentiment == 0.9 && b.sentiment == -0.5 && c.sentiment == 0.0
    ensures NSmallest([a, b, c], 1) == [b]
  {
  }

  // ---------------------------------------------------------------------
  // The whole news view

  /** The overview of a non-empty data frame: its average sentiment, the
      strict positive and negative counts, and the three most positive and
      three most negative rows. */
  function Summarize(rs: seq<NewsRecord>): (s: NewsSummary)
    requires |rs| > 0
    ensures s.records == rs
    ensures s.averageSentiment == AverageSentiment(rs)
    ensures s.positiveCount == |Positives(rs)| && s.negativeCount == |Negatives(rs)|
    ensures s.mostPositive == NLargest(rs, TopCount) && s.mostNegative == NSmallest(rs, TopCount)
    ensures s.positiveCount + s.negativeCount <= |rs|
    ensures s.averageSentiment > 0.0 ==> s.positiveCount > 0
    ensures s.averageSentiment < 0.0 ==> s.negativeCount > 0
    ensures SentimentsInRange(rs) ==> -1.0 <= s.averageSentiment <= 1.0
    ensures |s.mostPositive| == |s.mostNegative| == if TopCount < |rs| then TopCount else |rs|
  {
    CountsPartition(rs);
    AverageSignHasWitness(rs);
    AverageInRange(rs);
    NewsSummary(
      rs,
      AverageSentiment(rs),
      |Positives(rs)|,
      |Negatives(rs)|,
      NLargest(rs, TopCount),
      NSmallest(rs, TopCount))
  }

  /** With a scorer that keeps to its ranges, every record's sentiment is
      a polarity in [-1, 1]. */
  lemma RecordsInRange(articles: seq<Article>, records: seq<NewsRecord>, split: Splitter, score: Scorer)
    requires |records| == |articles|
    requires forall i :: 0 <= i < |records| ==> records[i] == RecordOf(articles[i], split, score)
    ensures ScorerInRange(score) ==> SentimentsInRange(records)
  {
    if ScorerInRange(score) {
      forall i | 0 <= i < |records| ensures -1.0 <= records[i].sentiment <= 1.0 {
        AnalyzeInRange(ArticleText(articles[i]), split, score);
      }
    }
  }

  /** The news branch of the dashboard after the fetch. No response, or a
      response without articles, yields None (the "Unable to fetch news"
      error). Otherwise the first `newsCount` articles (all of them if there
      are fewer) are analysed, one record each in article order, and
      summarised. */
  method SummarizeNews(newsData: Option<seq<Article>>, newsCount: int, split: Splitter, score: Scorer)
    returns (r: Option<NewsSummary>)
    requires MinNewsCount <= newsCount <= MaxNewsCount
    ensures r.None? <==> newsData.None? || |newsData.value| == 0
    ensures r.Some? ==> 0 < |r.value.records| <= newsCount
    ensures r.Some? ==>
              newsData.Some? &&
              |r.value.records| == if newsCount < |newsData.value| then newsCount else |newsData.value|
    ensures r.Some? ==> forall i :: 0 <= i < |r.value.records| ==>
              r.value.records[i] == RecordOf(newsData.value[i], split, score)
    ensures r.Some? ==> r.value == Summarize(r.value.records)
    ensures r.Some? && ScorerInRange(score) ==> -1.0 <= r.value.averageSentiment <= 1.0
  {
    if newsData.None? || |newsData.value| == 0 {
      return None;
    }
    var articles := Take(newsData.value, newsCount);
    var records := AnalyzeArticles(articles, split, score);
    forall i | 0 <= i < |records|
      ensures records[i] == RecordOf(articles[i], split, score)
      ensures records[i] == RecordOf(newsData.value[i], split, score)
    {
      assert articles[i] == newsData.value[i];
    }
    RecordsInRange(articles, records, split, score);
    var summary := Summarize(records);
    assert summary.records == records;
    r := Some(summary);
  }
}
