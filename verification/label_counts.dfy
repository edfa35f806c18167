/** Label occurrences across a list of labelled words, and the per-label
    sums the dashboard and the summary counts are made of. */
module LabelCounts {
  import opened Seqs
  import opened Tally
  import opened Records

  /** The occurrences of `labels` in one word, each weighted by the word's
      frequency, in the order the inner loop visits them. */
  function LabelMentions(labels: seq<string>, freq: int): (r: seq<Tagged<()>>)
    ensures |r| == |labels|
  {
    if labels == [] then []
    else [Tagged(labels[0], freq, ())] + LabelMentions(labels[1..], freq)
  }

  /** Every label occurrence of every record, in the order of the two
      nested `for` loops. */
  function Mentions(records: seq<Word>): seq<Tagged<()>> {
    if records == [] then []
    else LabelMentions(records[0].labels, records[0].frequency) + Mentions(records[1..])
  }

  /** How often label `l` occurs in a word's label list. */
  function OccurrencesOf(l: string): Word -> int {
    (w: Word) => multiset(w.labels)[l]
  }

  function WeightedOccurrencesOf(l: string): Word -> int {
    (w: Word) => w.frequency * multiset(w.labels)[l]
  }

  /** With non-negative frequencies every weighted occurrence count is
      non-negative. */
  lemma WeightedNonNegative(records: seq<Word>, l: string)
    requires forall w :: w in records ==> w.frequency >= 0
    ensures forall w :: w in records ==> WeightedOccurrencesOf(l)(w) >= 0
  {
    forall w | w in records ensures WeightedOccurrencesOf(l)(w) >= 0 {
      ProductNonNegative(w.frequency, multiset(w.labels)[l]);
    }
  }

  lemma ProductNonNegative(a: int, b: int)
    requires a >= 0 && b >= 0
    ensures a * b >= 0
  {
  }

  /** Reference sums: a label's total frequency is the frequency of every
      record it labels, once per occurrence; its word count is the number
      of occurrences. */
  function LabelTotal(records: seq<Word>, l: string): int {
    SumBy(records, WeightedOccurrencesOf(l))
  }

  function LabelCount(records: seq<Word>, l: string): int {
    SumBy(records, OccurrencesOf(l))
  }

  lemma {:induction false} LabelMentionsTotals(labels: seq<string>, freq: int, l: string)
    ensures Total(LabelMentions(labels, freq), l) == freq * multiset(labels)[l]
    ensures Count(LabelMentions(labels, freq), l) == multiset(labels)[l]
  {
    if labels != [] {
      var e: Tagged<()> := Tagged(labels[0], freq, ());
      var rest := labels[1..];
      LabelMentionsTotals(rest, freq, l);
      TotalAppend([e], LabelMentions(rest, freq), l);
      SingleContribution(e, l);
      assert labels == [labels[0]] + rest;
      var m := multiset(rest)[l];
      assert multiset(labels)[l] == m + (if labels[0] == l then 1 else 0);
      Distribute(freq, m, labels[0] == l);
    }
  }

  /** The product step of `LabelMentionsTotals`, kept apart so that the
      nonlinear arithmetic is proved without the sequence facts around it. */
  lemma Distribute(freq: int, m: int, hit: bool)
    ensures freq * (m + (if hit then 1 else 0)) == freq * m + (if hit then freq else 0)
  {
  }

  /** The occurrences gathered by the nested loops add up to the reference
      sums. */
  lemma {:induction false} MentionsTotals(records: seq<Word>, l: string)
    ensures Total(Mentions(records), l) == LabelTotal(records, l)
    ensures Count(Mentions(records), l) == LabelCount(records, l)
  {
    if records != [] {
      var w := records[0];
      MentionsTotals(records[1..], l);
      LabelMentionsTotals(w.labels, w.frequency, l);
      TotalAppend(LabelMentions(w.labels, w.frequency), Mentions(records[1..]), l);
    }
  }

  /** A label is counted at least once exactly when some record carries it. */
  lemma {:induction false} LabelCountPositive(records: seq<Word>, l: string)
    ensures LabelCount(records, l) > 0 <==> exists w :: w in records && l in w.labels
  {
    if records != [] {
      var rest := records[1..];
      assert records == [records[0]] + rest;
      LabelCountPositive(rest, l);
      SumByNonNegative(rest, OccurrencesOf(l));
      assert l in records[0].labels <==> multiset(records[0].labels)[l] > 0;
    }
  }

  /** The labels the nested loops meet are the labels some record carries. */
  lemma MentionedLabels(records: seq<Word>, l: string)
    ensures l in Keys(Mentions(records)) <==> exists w :: w in records && l in w.labels
  {
    CountPositive(Mentions(records), l);
    MentionsTotals(records, l);
    LabelCountPositive(records, l);
  }

  /** The weight of all occurrences is each record's frequency times its
      number of labels. */
  lemma {:induction false} MentionsWeight(records: seq<Word>)
    ensures SumBy(Mentions(records), WeightOf) == SumBy(records, FrequencyTimesLabels)
  {
    if records != [] {
      var w := records[0];
      MentionsWeight(records[1..]);
      LabelMentionsWeight(w.labels, w.frequency);
      SumByAppend(LabelMentions(w.labels, w.frequency), Mentions(records[1..]), WeightOf);
    }
  }

  lemma {:induction false} LabelMentionsWeight(labels: seq<string>, freq: int)
    ensures SumBy(LabelMentions(labels, freq), WeightOf) == freq * |labels|
  {
    if labels != [] {
      LabelMentionsWeight(labels[1..], freq);
      var m := LabelMentions(labels, freq);
      assert m[0].weight == freq && m[1..] == LabelMentions(labels[1..], freq);
      assert freq * |labels| == freq + freq * |labels[1..]|;
    }
  }

  function FrequencyTimesLabels(w: Word): int {
    w.frequency * |w.labels|
  }
}
