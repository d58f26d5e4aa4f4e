/**
  Document-level sentiment: `analyze_sentiment` splits a text into sentences,
  scores each sentence and averages the scores.

  The sentence splitter (NLTK's `sent_tokenize`) and the scorer (TextBlob's
  lexicon-based `sentiment`) are foreign code; they enter the model as
  function-typed parameters about which nothing is known except, where a
  lemma needs it, the documented score ranges.
 */
module Sentiment {
  import opened Stats

  /** TextBlob's `Sentiment(polarity, subjectivity)` pair. */
  datatype Score = Score(polarity: real, subjectivity: real)

  /** The dictionary analyze_sentiment returns: the two averages and the
      ordered (sentence, score) pairs. */
  datatype DocumentSentiment = DocumentSentiment(
    overallPolarity: real,
    overallSubjectivity: real,
    sentenceSentiments: seq<(string, Score)>)

  /** `sent_tokenize`: text to its ordered sentences. */
  type Splitter = string -> seq<string>

  /** `TextBlob(sentence).sentiment`: a sentence to its score. */
  type Scorer = string -> Score

  /** The documented ranges: polarity in [-1, 1], subjectivity in [0, 1]. */
  predicate InRange(s: Score)
  {
    -1.0 <= s.polarity <= 1.0 && 0.0 <= s.subjectivity <= 1.0
  }

  /** A scorer that respects the documented ranges on every input. */
  ghost predicate ScorerInRange(score: Scorer)
  {
    forall s: string :: InRange(score(s))
  }

  /** The list comprehension `[TextBlob(s).sentiment for s in sentences]`. */
  function ScoreAll(sentences: seq<string>, score: Scorer): (r: seq<Score>)
    ensures |r| == |sentences|
    ensures forall i :: 0 <= i < |r| ==> r[i] == score(sentences[i])
  {
    seq(|sentences|, i requires 0 <= i < |sentences| => score(sentences[i]))
  }

  /** The generator `s.polarity for s in sentiments`. */
  function Polarities(ss: seq<Score>): (r: seq<real>)
    ensures |r| == |ss|
    ensures forall i :: 0 <= i < |r| ==> r[i] == ss[i].polarity
  {
    seq(|ss|, i requires 0 <= i < |ss| => ss[i].polarity)
  }

  /** The generator `s.subjectivity for s in sentiments`. */
  function Subjectivities(ss: seq<Score>): (r: seq<real>)
    ensures |r| == |ss|
    ensures forall i :: 0 <= i < |r| ==> r[i] == ss[i].subjectivity
  {
    seq(|ss|, i requires 0 <= i < |ss| => ss[i].subjectivity)
  }

  /** Python's `zip(sentences, sentiments)` on lists of equal length. */
  function Zip(sentences: seq<string>, ss: seq<Score>): (r: seq<(string, Score)>)
    requires |sentences| == |ss|
    ensures |r| == |sentences|
    ensures forall i :: 0 <= i < |r| ==> r[i] == (sentences[i], ss[i])
  {
    seq(|sentences|, i requires 0 <= i < |sentences| => (sentences[i], ss[i]))
  }

  /** analyze_sentiment(text). No sentences gives the all-zero result;
      otherwise the averages are means over the sentences and the pairs
      are the sentences, in order, each with its own score. */
  function AnalyzeSentiment(text: string, split: Splitter, score: Scorer): (r: DocumentSentiment)
    ensures |r.sentenceSentiments| == |split(text)|
    ensures forall i :: 0 <= i < |split(text)| ==>
              r.sentenceSentiments[i] == (split(text)[i], score(split(text)[i]))
    ensures |split(text)| == 0 <==> r == DocumentSentiment(0.0, 0.0, [])
    ensures |split(text)| > 0 ==>
              r.overallPolarity * (|split(text)| as real)
                == Sum(Polarities(ScoreAll(split(text), score)))
    ensures |split(text)| > 0 ==>
              r.overallSubjectivity * (|split(text)| as real)
                == Sum(Subjectivities(ScoreAll(split(text), score)))
  {
    var sentences := split(text);
    var sentiments := ScoreAll(sentences, score);
    if |sentences| == 0 then
      DocumentSentiment(0.0, 0.0, [])
    else
      DocumentSentiment(
        Mean(Polarities(sentiments)),
        Mean(Subjectivities(sentiments)),
        Zip(sentences, sentiments))
  }

  /** When every sentence's score is in range, so are both averages (the
      empty result, 0 and 0, is in range too). */
  lemma AnalyzeInRange(text: string, split: Splitter, score: Scorer)
    requires forall i :: 0 <= i < |split(text)| ==> InRange(score(split(text)[i]))
    ensures -1.0 <= AnalyzeSentiment(text, split, score).overallPolarity <= 1.0
    ensures 0.0 <= AnalyzeSentiment(text, split, score).overallSubjectivity <= 1.0
  {
    var sentences := split(text);
    if |sentences| > 0 {
      var sentiments := ScoreAll(sentences, score);
      MeanBounds(Polarities(sentiments), -1.0, 1.0);
      MeanBounds(Subjectivities(sentiments), 0.0, 1.0);
    }
  }

  /** Two sentences scored +0.8 and -0.8 average to polarity 0, and the
      pairs keep the sentences in their original order. */
  lemma OpposingSentencesCancel(text: string, split: Splitter, score: Scorer, s1: string, s2: string)
    requires split(text) == [s1, s2]
    requires score(s1).polarity == 0.8 && score(s2).polarity == -0.8
    ensures AnalyzeSentiment(text, split, score).overallPolarity == 0.0
    ensures AnalyzeSentiment(text, split, score).sentenceSentiments == [(s1, score(s1)), (s2, score(s2))]
  {
    var ps := Polarities(ScoreAll(split(text), score));
    assert ps == [0.8, -0.8];
    assert Sum(ps) == 0.0 by {
      assert ps[1..] == [-0.8];
      assert ps[1..][1..] == [];
      assert Sum(ps[1..][1..]) == 0.0;
      assert Sum(ps[1..]) == -0.8;
    }
  }
}
