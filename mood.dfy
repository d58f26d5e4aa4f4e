/**
  The dashboard's threshold labelling of a polarity: the mood label of the
  "Overall Mood" card and the colour used for the overall score and for
  each sentence. Both use the fixed threshold 0.3, strictly.
 */
module Mood {
  import opened Sentiment

  /** Polarities strictly beyond +/-Threshold are Positive/Negative. */
  const Threshold: real := 0.3

  /** The strings "Positive", "Neutral" and "Negative". */
  datatype Label = Positive | Neutral | Negative

  /** The CSS colours 'green', 'orange' and 'red'. */
  datatype Color = Green | Orange | Red

  /** The colour that goes with each label. */
  function LabelColor(l: Label): Color
  {
    match l
    case Positive => Green
    case Neutral => Orange
    case Negative => Red
  }

  /** The label expression: Positive above the threshold, Negative below
      its negation, Neutral in between (both boundaries included). */
  function MoodLabel(v: real): (l: Label)
    ensures l == Positive <==> v > Threshold
    ensures l == Negative <==> v < -Threshold
    ensures l == Neutral <==> -Threshold <= v <= Threshold
  {
    if v > Threshold then Positive else if v < -Threshold then Negative else Neutral
  }

  /** The colour expression. It tests the negative side first, unlike the
      label expression, yet always agrees with the label. */
  function MoodColor(v: real): (c: Color)
    ensures c == LabelColor(MoodLabel(v))
    ensures c == Orange <==> -Threshold <= v <= Threshold
  {
    if v < -Threshold then Red else if v > Threshold then Green else Orange
  }

  /** The colour of every sentence in the sentence-level view, in order:
      each one the colour of that sentence's own mood label. */
  function SentenceColors(d: DocumentSentiment): (cs: seq<Color>)
    ensures |cs| == |d.sentenceSentiments|
    ensures forall i :: 0 <= i < |cs| ==>
              cs[i] == LabelColor(MoodLabel(d.sentenceSentiments[i].1.polarity))
  {
    seq(|d.sentenceSentiments|, i requires 0 <= i < |d.sentenceSentiments| =>
      MoodColor(d.sentenceSentiments[i].1.polarity))
  }

  /** A text with no sentences renders as a Neutral, orange score. */
  lemma EmptyTextIsNeutral(text: string, split: Splitter, score: Scorer)
    requires split(text) == []
    ensures MoodLabel(AnalyzeSentiment(text, split, score).overallPolarity) == Neutral
    ensures MoodColor(AnalyzeSentiment(text, split, score).overallPolarity) == Orange
  {
  }
}
