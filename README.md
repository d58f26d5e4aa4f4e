# Sentiment dashboard core, in Dafny

This project models the data logic of a Streamlit sentiment dashboard (`app.py`).
It has three parts:

- **Document sentiment** (`analyze_sentiment`). A text is split into sentences and each
  sentence is scored. The result is the mean polarity, the mean subjectivity and the
  ordered (sentence, score) pairs. A text with no sentences gets the all-zero result.
- **News overview** (the "News Analysis" branch of `main`). The fetched article list is
  truncated to the slider's article count (5 to 50). A loop turns each article into one
  record: its title, polarity, subjectivity, url and publication time. The records are
  reduced to the average sentiment, the number of strictly positive and strictly
  negative articles, and the three most positive and three most negative rows.
- **Mood labelling**. A polarity above 0.3 is Positive and green. Below -0.3 it is
  Negative and red. Anything else, both boundaries included, is Neutral and orange.

The sentence splitter (NLTK `sent_tokenize`) and the scorer (TextBlob `sentiment`) are
foreign code. They are function-typed parameters (`Splitter`, `Scorer`). Their documented
ranges, polarity in [-1, 1] and subjectivity in [0, 1], appear only as hypotheses where
they are needed: as preconditions of lemmas, or as the left side of an implication in an
`ensures`. Scores are exact `real`s.

Files:

- `stats.dfy` (module `Stats`): `Sum`, Python's left-to-right `sum`, `Mean` and bounds on means.
- `sentiment.dfy` (module `Sentiment`): the score types and `AnalyzeSentiment`.
- `mood.dfy` (module `Mood`): labels and colours.
- `news.dfy` (module `News`): articles, records, the article loop (`AnalyzeArticles`,
  a method with a loop invariant), the row filters, `NLargest`/`NSmallest`, and the
  whole news view (`SummarizeNews`).

`nlargest` and `nsmallest` are modelled as an insertion sort by polarity followed by
a prefix. The contracts state only what pandas promises: the length is min(k, n), the
rows are drawn from the input, the order is sorted, and no row left out beats a row kept.
The list length is the constant `TopCount`, 3 (app.py:207, 217).

The mean of the news records is only taken when there is at least one record: the guard
at app.py:150 and the slider minimum of 5 (app.py:144) keep the list non-empty.
The 0.3 thresholds of app.py:98, 115 and 126 are modelled in `mood.dfy`.

## Model

| member | source | states |
|---|---|---|
| `Stats.Sum` | app.py:41-42 | the sum of a list, defined from the front; `SumFrom` relates it to Python's `sum` |
| `Stats.SumFrom` | app.py:41-42 | Python's `sum` with a start value, adding from the left one element at a time, equals the start value plus `Sum`, so `sum` from 0 is `Sum` |
| `Stats.Mean` | app.py:41-42 | the mean of a non-empty list is the value whose count-fold multiple is the sum |
| `Stats.MeanBounds` | app.py:41-42 | the mean of values in [lo, hi] lies in [lo, hi] |
| `Sentiment.ScoreAll` | app.py:31 | one score per sentence, in order, each the scorer's value on that sentence |
| `Sentiment.Polarities` | app.py:41 | the generator `s.polarity for s in sentiments`: one value per score, in order, each that score's polarity |
| `Sentiment.Subjectivities` | app.py:42 | the generator `s.subjectivity for s in sentiments`: one value per score, in order, each that score's subjectivity |
| `Sentiment.Zip` | app.py:43 | `zip` of two lists of equal length: as many pairs as sentences, pair i holding sentence i and score i |
| `Sentiment.AnalyzeSentiment` | app.py:29-44 | no sentences gives exactly (0, 0, []), and only then; otherwise polarity times the sentence count is the sum of the sentence polarities, and the same for subjectivity; entry i is (sentence i, score of sentence i), and there are as many entries as sentences |
| `Sentiment.AnalyzeInRange` | app.py:41-42 | if every sentence score is in range, overall polarity is in [-1, 1] and overall subjectivity in [0, 1] |
| `Sentiment.OpposingSentencesCancel` | app.py:29-44 | two sentences scored +0.8 and -0.8 give overall polarity 0 and keep their order |
| `Mood.MoodLabel` | app.py:115 | Positive iff v > 0.3, Negative iff v < -0.3, Neutral iff -0.3 <= v <= 0.3 |
| `Mood.MoodColor` | app.py:98 | the colour is always the colour of the label (green, orange, red), although the negative side is tested first; orange iff -0.3 <= v <= 0.3 |
| `Mood.SentenceColors` | app.py:125-126 | one colour per sentence pair, in order, each the colour of that sentence's own label |
| `Mood.EmptyTextIsNeutral` | app.py:33-38 | a text with no sentences is shown as Neutral and orange |
| `News.Take` | app.py:151 | the slice `[:n]` is the first min(n, len) elements, in order |
| `News.ArticleText` | app.py:156 | the analysed text starts with the title followed by one space; it then ends there when the description is missing, and otherwise continues with exactly the description |
| `News.RecordOf` | app.py:155-163 | the record copies the article's title, url and publishedAt; its sentiment and subjectivity are the overall scores of the article's text, and both are 0 when the text has no sentences |
| `News.AnalyzeArticles` | app.py:154-163 | one record per article, in article order; title, url and publishedAt are copied; the sentiment and subjectivity are the overall scores of `title + " " + (description or "")` |
| `News.Sentiments` | app.py:172 | the column `df['sentiment']`: one value per record, in order, each that record's sentiment |
| `News.AverageSentiment` | app.py:172 | the mean of a non-empty sentiment column times the row count is the column's sum |
| `News.Filter` | app.py:174-176 | a row filter keeps, for each row value, exactly its occurrences that satisfy the mask, and no others |
| `News.Positives` | app.py:174 | `df[df['sentiment'] > 0]` holds every occurrence of each strictly positive row and no other row |
| `News.Negatives` | app.py:176 | `df[df['sentiment'] < 0]` holds every occurrence of each strictly negative row and no other row |
| `News.CountsPartition` | app.py:174-176 | positive, negative and zero-sentiment rows together are all rows, so the two counts never exceed the number of rows |
| `News.AverageInRange` | app.py:172 | if every sentiment is in [-1, 1], so is the average |
| `News.AverageSignHasWitness` | app.py:172-176 | a positive average implies a positive count above 0; a negative average implies a negative count above 0 |
| `News.NLargest` | app.py:207 | min(k, n) rows drawn from the input (sub-multiset), non-increasing by sentiment, and no row left out has a higher sentiment than any row kept |
| `News.NSmallest` | app.py:217 | min(k, n) rows drawn from the input, non-decreasing by sentiment, and no row left out has a lower sentiment than any row kept |
| `News.FewRecordsAllKept` | app.py:207-217 | with at most k rows, both lists are permutations of all rows |
| `News.ThreeRecordCounts` | app.py:174-176 | rows with sentiment 0.9, -0.5 and 0 give one positive and one negative article |
| `News.ThreeRecordMostPositive` | app.py:207 | the most positive of those rows is the 0.9 row, forced by the contract of `NLargest` alone |
| `News.ThreeRecordMostNegative` | app.py:217 | the most negative of those rows is the -0.5 row, forced by the contract of `NSmallest` alone |
| `News.RecordsInRange` | app.py:155-163 | with a scorer that keeps to its ranges, every record's sentiment is in [-1, 1] |
| `News.Summarize` | app.py:172-217 | keeps the rows; the average is their mean; the counts are the sizes of the strict positive and negative filters, and together they are at most the number of rows; the two lists are `NLargest` and `NSmallest` with k = 3; a positive (negative) average has a positive (negative) article; the average is in [-1, 1] when every sentiment is; both top lists have min(3, n) rows |
| `News.SummarizeNews` | app.py:150-163 | no response or no articles gives None and only then; otherwise there are between 1 and newsCount records, exactly min(newsCount, articles) of them, record i is article i's record, the overview is `Summarize` of the records, and the average is in [-1, 1] when the scorer keeps to its ranges |

## Left out

- `fetch_news` (app.py:20-23) is an HTTP call to newsapi.org. Its outcome is the input `newsData` of `SummarizeNews`. `None` stands for a failed request and also for a response with no `articles` key.
- The `punkt` download at import time (app.py:14-18) is global I/O and is not modelled.
- The internals of `sent_tokenize` and of TextBlob's lexicon scorer are foreign code. They are opaque function parameters.
- The word cloud, the histogram, all `st.*` layout, CSS, HTML and secrets are rendering or UI (app.py:25-27, 47-135, 178-202, 208-224). Apart from the label and colour expressions at app.py:98, 115 and 126, which `mood.dfy` models, they are not modelled. This includes the `if text_input:` and `and topic` guards.
- The number of rows in the "Most Positive" and "Most Negative" lists is fixed at 3 (app.py:207, 217) in the code. It is the constant `TopCount`, and no other value is modelled.
- An exception raised by `sent_tokenize` or TextBlob would propagate out of `main`. That path is not modelled: the splitter and the scorer here are total functions.
- Floating-point rounding, NaN and the `:.2f` formatting are not modelled. Numbers are exact reals.
- `NLargest`, `NSmallest`: tie-breaking between rows with equal sentiment is pandas-internal, so the contracts do not say which tied row is kept.
- A `None` title would raise a `TypeError` at the string concatenation in app.py:156. That case is not modelled. Titles are strings.
- The slider limits the article count to 5 through 50 (app.py:144). `SummarizeNews` requires that range and does not model other values.
