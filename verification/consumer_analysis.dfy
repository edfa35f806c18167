/** The statistics the consumer-analysis dashboard derives from the loaded
    labelled words: the visible labels, the per-label totals ranked by
    frequency, the words shown for a selected label, and the top-100 view
    with its own statistics and label filter. */
module ConsumerAnalysis {
  import opened Seqs
  import opened Sorting
  import opened Tally
  import opened Records
  import opened LabelCounts

  /** Contextual tags that the dashboard hides unless asked for. */
  const HiddenByDefault: set<string> :=
    {"high_frequency_word", "short_word", "long_word", "code_number", "foreign_word"}

  /** Fallback categories that the dashboard never shows. */
  const AlwaysHide: set<string> := {"other", "not_important"}

  predicate Shown(l: string) {
    l !in AlwaysHide && l !in HiddenByDefault
  }

  function ShownLabel(): string -> bool {
    (l: string) => Shown(l)
  }

  // ---------------------------------------------------------------------
  // visibleData

  /** A word with its hidden labels removed. */
  function HideLabels(w: Word): (r: Word)
    ensures r.zh == w.zh && r.en == w.en && r.frequency == w.frequency
    ensures forall l :: l in r.labels <==> l in w.labels && Shown(l)
    ensures forall l :: multiset(r.labels)[l] == if Shown(l) then multiset(w.labels)[l] else 0
  {
    FilterMembers(w.labels, ShownLabel());
    FilterMultiset(w.labels, ShownLabel());
    w.(labels := Filter(w.labels, ShownLabel()))
  }

  /** `visibleData`: every word, in order, with the labels of both hidden
      sets removed and everything else unchanged. */
  function VisibleData(data: seq<Word>): (r: seq<Word>)
    ensures |r| == |data|
    ensures forall i :: 0 <= i < |data| ==>
      r[i].zh == data[i].zh && r[i].en == data[i].en && r[i].frequency == data[i].frequency
    ensures forall i, l :: 0 <= i < |data| ==>
      (l in r[i].labels <==> l in data[i].labels && l !in AlwaysHide && l !in HiddenByDefault)
    ensures forall i, l :: 0 <= i < |data| ==>
      multiset(r[i].labels)[l] == if l in AlwaysHide || l in HiddenByDefault then 0 else multiset(data[i].labels)[l]
  {
    seq(|data|, i requires 0 <= i < |data| => HideLabels(data[i]))
  }

  /** The labels a word keeps are in their original order. */
  lemma VisibleKeepsOrder(data: seq<Word>)
    ensures forall i :: 0 <= i < |data| ==> IsSubseq(VisibleData(data)[i].labels, data[i].labels)
  {
    forall i | 0 <= i < |data|
      ensures IsSubseq(VisibleData(data)[i].labels, data[i].labels)
    {
      FilterIsSubseq(data[i].labels, ShownLabel());
    }
  }

  /** Hiding twice is hiding once. */
  lemma VisibleIdempotent(data: seq<Word>)
    ensures VisibleData(VisibleData(data)) == VisibleData(data)
  {
    forall i | 0 <= i < |data|
      ensures VisibleData(VisibleData(data))[i] == VisibleData(data)[i]
    {
      FilterIdempotent(data[i].labels, ShownLabel());
    }
  }

  // ---------------------------------------------------------------------
  // labelStats

  datatype LabelStat = LabelStat(name: string, totalFrequency: int, wordCount: int)

  function TotalFrequencyOf(s: LabelStat): int {
    s.totalFrequency
  }

  function LabelOf(s: LabelStat): string {
    s.name
  }

  /** The entry the reference sums give label `l`. */
  function StatOf(records: seq<Word>, l: string): LabelStat {
    LabelStat(l, LabelTotal(records, l), LabelCount(records, l))
  }

  function StatFor(records: seq<Word>): string -> LabelStat {
    (l: string) => StatOf(records, l)
  }

  /** `Object.entries(totals)`: one entry per label, in the order the
      labels were first met (none of the labels is an integer-like key). */
  function FirstEncounter(records: seq<Word>): seq<LabelStat> {
    Map(Keys(Mentions(records)), StatFor(records))
  }

  /** The entries ranked by a stable descending sort on total frequency. */
  function Ranked(records: seq<Word>): seq<LabelStat> {
    SortDesc(FirstEncounter(records), TotalFrequencyOf)
  }

  /** `labelStats` (and `top100LabelStats`): the nested loops fill a
      dictionary keyed by label, whose entries are then listed and sorted. */
  method LabelStats(records: seq<Word>) returns (stats: seq<LabelStat>)
    ensures stats == Ranked(records)
    ensures DescendingBy(stats, TotalFrequencyOf)
  {
    var acc := Accumulate(Mentions(records));
    var entries: seq<LabelStat> := [];
    var i := 0;
    while i < |acc.order|
      invariant 0 <= i <= |acc.order|
      invariant entries == Map(acc.order[..i], StatFor(records))
    {
      var l := acc.order[i];
      assert Occurs(Mentions(records), l);
      MentionsTotals(records, l);
      entries := entries + [LabelStat(l, acc.entries[l].total, acc.entries[l].count)];
      i := i + 1;
    }
    assert acc.order[..i] == acc.order;
    stats := SortDesc(entries, TotalFrequencyOf);
  }

  /** Every ranked entry carries its label's reference total and count. */
  lemma RankedEntries(records: seq<Word>)
    ensures forall s :: s in Ranked(records) ==> s == StatOf(records, s.name)
  {
    var first := FirstEncounter(records);
    forall s | s in Ranked(records)
      ensures s == StatOf(records, s.name)
    {
      assert s in multiset(first);
    }
  }

  /** A label is ranked exactly when some record carries it, and once. */
  lemma RankedLabels(records: seq<Word>)
    ensures forall l :: l in Map(Ranked(records), LabelOf) <==> exists w :: w in records && l in w.labels
    ensures Distinct(Map(Ranked(records), LabelOf))
  {
    var first, ranked := FirstEncounter(records), Ranked(records);
    var keys := Keys(Mentions(records));
    forall l
      ensures l in Map(ranked, LabelOf) <==> exists w :: w in records && l in w.labels
    {
      MentionedLabels(records, l);
      if l in keys {
        var i :| 0 <= i < |keys| && keys[i] == l;
        assert first[i] in multiset(ranked);
        var j :| 0 <= j < |ranked| && ranked[j] == first[i];
        assert Map(ranked, LabelOf)[j] == l;
      }
      if l in Map(ranked, LabelOf) {
        var j :| 0 <= j < |ranked| && ranked[j].name == l;
        assert ranked[j] in multiset(first);
        var i :| 0 <= i < |first| && first[i] == ranked[j];
        assert keys[i] == l;
      }
    }
    assert Distinct(first) by {
      forall i, j | 0 <= i < j < |first| ensures first[i] != first[j] {
        assert first[i].name == keys[i] && first[j].name == keys[j];
      }
    }
    DistinctPermutation(first, ranked);
    RankedEntries(records);
    forall i, j | 0 <= i < j < |ranked|
      ensures Map(ranked, LabelOf)[i] != Map(ranked, LabelOf)[j]
    {
      assert ranked[i] in ranked && ranked[j] in ranked;
    }
  }

  /** Labels with equal totals keep the order in which they were first met. */
  lemma RankedStable(records: seq<Word>, total: int)
    ensures Filter(Ranked(records), KeyIs(TotalFrequencyOf, total))
         == Filter(FirstEncounter(records), KeyIs(TotalFrequencyOf, total))
    ensures Map(FirstEncounter(records), LabelOf) == Keys(Mentions(records))
  {
    SortDescStable(FirstEncounter(records), TotalFrequencyOf, total);
  }

  /** The totals of the ranked entries add up to each record's frequency
      times its number of labels. */
  lemma RankedTotalsConserve(records: seq<Word>)
    ensures SumBy(Ranked(records), TotalFrequencyOf) == SumBy(records, FrequencyTimesLabels)
  {
    var keys := Keys(Mentions(records));
    SortDescSum(FirstEncounter(records), TotalFrequencyOf, TotalFrequencyOf);
    StatsSumOver(records, keys);
    TotalsConserveWeight(Mentions(records));
    MentionsWeight(records);
  }

  lemma {:induction false} StatsSumOver(records: seq<Word>, ks: seq<string>)
    ensures SumBy(Map(ks, StatFor(records)), TotalFrequencyOf) == TotalsOver(Mentions(records), ks)
  {
    if ks != [] {
      StatsSumOver(records, ks[1..]);
      MentionsTotals(records, ks[0]);
      var m := Map(ks, StatFor(records));
      assert m[0].totalFrequency == LabelTotal(records, ks[0]);
      assert m[1..] == Map(ks[1..], StatFor(records));
    }
  }

  // ---------------------------------------------------------------------
  // wordsForActive

  /** JavaScript's truthiness of the selected label: nothing selected and
      the empty string both mean "no selection". */
  predicate Selected(o: Option<string>) {
    o.Some? && o.value != ""
  }

  function HasLabel(l: string): Word -> bool {
    (w: Word) => l in w.labels
  }

  /** The 50 most frequent visible words carrying the selected label: as
      many as there are, up to 50, most frequent first, and no word left out
      is more frequent than one kept. */
  function WordsForActive(active: Option<string>, visible: seq<Word>): (r: seq<Word>)
    ensures !Selected(active) ==> r == []
    ensures |r| <= 50
    ensures Selected(active) ==> forall w :: w in r ==> active.value in w.labels
    ensures DescendingBy(r, Frequency)
    ensures Selected(active) ==>
      var carrying := Filter(visible, HasLabel(active.value));
      && |r| == (if |carrying| < 50 then |carrying| else 50)
      && multiset(r) <= multiset(carrying)
      && forall x, y :: x in multiset(carrying) - multiset(r) && y in r ==> x.frequency <= y.frequency
  {
    if !Selected(active) then []
    else
      FilterMembers(visible, HasLabel(active.value));
      TopN(Filter(visible, HasLabel(active.value)), Frequency, 50)
  }

  // ---------------------------------------------------------------------
  // top100Base, top100LabelStats, top100Filtered

  /** The 100 most frequent visible words, most frequent first. */
  function Top100Base(visible: seq<Word>): (r: seq<Word>)
    ensures |r| == if |visible| < 100 then |visible| else 100
    ensures DescendingBy(r, Frequency)
    ensures multiset(r) <= multiset(visible)
    ensures forall x, y :: x in multiset(visible) - multiset(r) && y in r ==> x.frequency <= y.frequency
  {
    TopN(visible, Frequency, 100)
  }

  /** `top100LabelStats`: the same aggregation over the top-100 words. */
  method Top100LabelStats(visible: seq<Word>) returns (stats: seq<LabelStat>)
    ensures stats == Ranked(Top100Base(visible))
    ensures DescendingBy(stats, TotalFrequencyOf)
  {
    stats := LabelStats(Top100Base(visible));
  }

  /** Restricting to the top 100 never raises a label's count, nor (for
      non-negative frequencies) its total. */
  lemma Top100SumsBounded(visible: seq<Word>, l: string)
    ensures LabelCount(Top100Base(visible), l) <= LabelCount(visible, l)
    ensures (forall w :: w in visible ==> w.frequency >= 0) ==>
      LabelTotal(Top100Base(visible), l) <= LabelTotal(visible, l)
  {
    TopNSumAtMost(visible, Frequency, 100, OccurrencesOf(l));
    if forall w :: w in visible ==> w.frequency >= 0 {
      WeightedNonNegative(visible, l);
      TopNSumAtMost(visible, Frequency, 100, WeightedOccurrencesOf(l));
    }
  }

  /** Each entry of the top-100 statistics has a matching entry in the
      full statistics whose count, and (for non-negative frequencies)
      total, is at least as large. */
  lemma Top100StatsBounded(visible: seq<Word>)
    ensures forall t :: t in Ranked(Top100Base(visible)) ==>
      exists s :: (s in Ranked(visible) && s.name == t.name && t.wordCount <= s.wordCount
        && ((forall w :: w in visible ==> w.frequency >= 0) ==> t.totalFrequency <= s.totalFrequency))
  {
    var top := Top100Base(visible);
    RankedEntries(top);
    RankedEntries(visible);
    RankedLabels(top);
    RankedLabels(visible);
    forall t | t in Ranked(top)
      ensures exists s :: (s in Ranked(visible) && s.name == t.name && t.wordCount <= s.wordCount
        && ((forall w :: w in visible ==> w.frequency >= 0) ==> t.totalFrequency <= s.totalFrequency))
    {
      var l := t.name;
      var j :| 0 <= j < |Ranked(top)| && Ranked(top)[j] == t;
      assert l in Map(Ranked(top), LabelOf) by {
        assert Map(Ranked(top), LabelOf)[j] == l;
      }
      var w :| w in top && l in w.labels;
      assert w in multiset(visible);
      assert l in Map(Ranked(visible), LabelOf);
      var i :| 0 <= i < |Ranked(visible)| && Map(Ranked(visible), LabelOf)[i] == l;
      var s := Ranked(visible)[i];
      assert s in Ranked(visible);
      Top100SumsBounded(visible, l);
    }
  }

  /** `top100Filtered`: the top-100 list, narrowed to the words carrying the
      filter label when one is set. */
  function Top100Filtered(top: seq<Word>, filter: Option<string>): (r: seq<Word>)
    ensures !Selected(filter) ==> r == top
    ensures IsSubseq(r, top)
    ensures Selected(filter) ==> forall w :: w in r <==> w in top && filter.value in w.labels
    ensures Selected(filter) ==> forall w :: multiset(r)[w] == if filter.value in w.labels then multiset(top)[w] else 0
  {
    if !Selected(filter) then
      IsSubseqReflexive(top);
      top
    else
      FilterIsSubseq(top, HasLabel(filter.value));
      FilterMembers(top, HasLabel(filter.value));
      FilterMultiset(top, HasLabel(filter.value));
      Filter(top, HasLabel(filter.value))
  }
}
