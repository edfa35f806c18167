# Consumer-analysis labelling and dashboard statistics, in Dafny

The system analyses words mined from social-media posts about imported
meat. Each word is a record `{zh, en, frequency, labels}`: the Chinese word,
its English translation, how often it occurred, and category labels.
Offline Python scripts assign the labels and aggregate country mentions. A
React dashboard page then shows per-label statistics and word lists.

This project models the data flow of that core as pure Dafny functions,
with a few methods where the source loops to build a dictionary:

- `Records` (`records.dfy`). The record shapes; `dict.get` and
  `item['key']` (with `KeyError` as a `MissingKey` result); and the driver
  that both `add_labels.py` and `detailed_labeling.py` share: keep the items
  whose frequency reaches the minimum, then label each one.
- `AddLabels` (`add_labels.dfy`). `categorize_word`: nineteen independent
  keyword checks on the lower-cased Chinese word, or `general` when none
  fires. Also `add_labels_to_words` without its file I/O.
- `DetailedLabeling` (`detailed_labeling.dfy`). `get_detailed_labels`:
  twenty-seven `if/elif` groups, each adding the labels of its first
  matching branch. When no group matches, contextual tags are added
  instead (length, code/number, foreign word, high frequency). The result
  is deduplicated. Also the `process_words_with_detailed_labels` driver.
- `CompactLabeling` (`compact_labeling.dfy`). The compact categories, the
  not-important cues and the context-noise set; `get_compact_labels`;
  `relabel_compact`; and its label-distribution counts.
- `ProcessCountries` (`process_countries.dfy`). The place-name to country
  mapping, which is a dict literal where a repeated key keeps its last
  value; `process_country_frequencies`; and `create_output`.
- `ConsumerAnalysis` (`consumer_analysis.dfy`). The dashboard memos:
  - `visibleData` hides the two sets of hidden labels;
  - `labelStats` and `top100LabelStats` total frequency and word count per
    label, then rank by total;
  - `wordsForActive` lists the 50 most frequent words with the selected
    label;
  - `top100Base` holds the 100 most frequent words, and `top100Filtered`
    narrows it to a label.
- Supporting modules:
  - `Seqs`: filter, map, take, sum;
  - `Text`: lower-casing, substring search, `any(kw in s for kw in ...)`,
    string order;
  - `Sorting`: a stable descending sort, top-N, sorted unique strings;
  - `Tally`: grouping tagged items into an insertion-ordered dictionary;
  - `LabelCounts`: per-label occurrence totals.

Python's `str.lower` is a parameter `lower: CaseMap`, a per-character
mapping. Every property holds for every such mapping. Sorting follows
JavaScript's `Array.prototype.sort` (stable since ES2019) and Python's
`sorted` (stable). Both are modelled as a stable insertion sort on the
descending key, so ties keep their input order.

## Model

| member | source | states |
|---|---|---|
| Records.Field | utils/add_labels.py:127-129 | `item[key]` yields the value exactly when the key is present, and otherwise fails naming that key |
| Records.FrequentItems | utils/add_labels.py:121 | the comprehension fails with a missing `frequency` exactly when some item lacks one; otherwise it keeps exactly the items whose frequency reaches the minimum, in order |
| Records.LabelItem | utils/add_labels.py:126-142 | one output record: it succeeds iff `zh` and `en` are present (else names the first missing key); it copies zh, en and frequency, and its labels are the labeller's result |
| Records.LabelAll | utils/detailed_labeling.py:270-284 | the labelling loop succeeds iff every kept item has `zh` and `en`, producing one record per item, index by index |
| Records.LabelFrequent | utils/add_labels.py:121-144 | a labelling driver succeeds iff every item has a frequency and every kept item has `zh` and `en` (items below the minimum are never asked for their words). It fails on `frequency` iff some item lacks it, and any failure names `frequency`, `zh` or `en`. On success, output record i is item i of the frequency filter, with its labels, and every output frequency reaches the minimum |
| Tally.Accumulate | src/pages/ConsumerAnalysisPage.tsx:118-125 | one pass over tagged contributions (as in the `totals` loop and in `process_country_frequencies` at utils/process_countries.py:106-123) lists the keys in first-seen order, and gives each key its summed weight, its count and its items in input order |
| Sorting.SortDesc | src/pages/ConsumerAnalysisPage.tsx:128 | the stable descending sort: a permutation of its input, in descending key order |
| Sorting.SortDescStable | src/pages/ConsumerAnalysisPage.tsx:128 | elements with equal keys keep their input order |
| Sorting.TopN | src/pages/ConsumerAnalysisPage.tsx:153 | sort then `slice(0, n)`: min(n, length) elements, descending, drawn from the input, none outranked by an element left out |
| Sorting.SortUnique | utils/compact_labeling.py:94 | `sorted(list(set(labels)))`: strictly ascending, with exactly the members of its input |
| Text.ContainsIff | utils/add_labels.py:29 | the substring check `kw in s` holds iff `kw` occurs at some position of `s` |
| Text.AnyContainedIff | utils/add_labels.py:29 | `any(kw in s for kw in keywords)` holds iff some listed keyword occurs in `s` |
| AddLabels.FiredLabels | utils/add_labels.py:29-99 | a label is appended iff some check with that label has a keyword in the word; the appended labels follow the order of the checks |
| AddLabels.FiredLabelsDistinct | utils/add_labels.py:29-99 | checks with pairwise different labels never append a label twice |
| AddLabels.CheckLabelsDistinct | utils/add_labels.py:29-103 | the nineteen check labels are pairwise different, and none is `general` |
| AddLabels.CategorizeLabels | utils/add_labels.py:29-103 | for any such checks: each label is present iff its check fires; `general` is present iff no check fires; nothing else appears and nothing repeats; the result is `[general]` or follows check order |
| AddLabels.CategorizeWord | utils/add_labels.py:11-105 | `categorize_word`: never empty; a check label is present iff one of its keywords occurs in the lower-cased Chinese word; `general` iff none does; no label twice |
| AddLabels.AddLabelsToWords | utils/add_labels.py:107-144 | `add_labels_to_words`: succeeds iff every item has a frequency and every kept item has `zh` and `en`; fails on `frequency` iff some item lacks it; any failure names `frequency`, `zh` or `en`. On success, each kept record carries the item's zh, en and frequency (at least the minimum) and `categorize_word`'s labels |
| DetailedLabeling.GroupFirstMatch | utils/detailed_labeling.py:20-31 | an `if/elif` group adds exactly the labels of its first branch whose keywords occur, and nothing when no branch matches |
| DetailedLabeling.MatchedLabelSource | utils/detailed_labeling.py:20-233 | every label collected before the fallback comes from the first matching branch of some group |
| DetailedLabeling.GroupSilent | utils/detailed_labeling.py:20-31 | a group adds nothing iff none of its branches matches |
| DetailedLabeling.MatchedNothing | utils/detailed_labeling.py:20-236 | the list before the fallback is empty iff no branch of any group matches |
| DetailedLabeling.BranchLabels | utils/detailed_labeling.py:20-233 | every branch of every group adds at least one label and no contextual tag; `business_entity` is added only by the `importer` branch |
| DetailedLabeling.ContextTags | utils/detailed_labeling.py:236-252 | the contextual tags: `short_word` iff at most 2 characters, `long_word` iff at least 4, `code_number` iff only ASCII letters and digits, `foreign_word` iff only ASCII letters (which implies `code_number`), and always `high_frequency_word`, with no repeats |
| DetailedLabeling.CollectedLabels | utils/detailed_labeling.py:11-252 | the list before deduplication is never empty |
| DetailedLabeling.DetailedFallback | utils/detailed_labeling.py:236-252 | when no group matches, the list is exactly the contextual tags. Otherwise it holds no contextual tag. `high_frequency_word` is present iff no group matched |
| DetailedLabeling.DetailedLabels | utils/detailed_labeling.py:254 | `list(set(labels))` as a set: non-empty, holding exactly the collected labels |
| DetailedLabeling.ImporterNeverFirst | utils/detailed_labeling.py:85-95 | the `importer` branch never runs: `import` (and 进口 within 进口商) is already matched by an earlier branch of the same chain |
| DetailedLabeling.BusinessEntityUnreachable | utils/detailed_labeling.py:85-95 | hence `business_entity` never appears in the detailed labels of any word |
| DetailedLabeling.DetailedLabelList | utils/detailed_labeling.py:254 | the deduplicated label list has no repeats and exactly the members of the detailed label set |
| DetailedLabeling.ProcessDetailed | utils/detailed_labeling.py:256-284 | the driver succeeds iff every item has a frequency and every kept item has `zh` and `en`; it fails on `frequency` iff some item lacks it; any failure names `frequency`, `zh` or `en`. On success, each kept record keeps zh and en, has frequency at least the minimum, and lists each detailed label exactly once |
| CompactLabeling.MatchesAnyIff | utils/compact_labeling.py:77-81 | the inner keyword loop breaks iff some keyword occurs in the lower-cased Chinese or English text |
| CompactLabeling.CompactLabels | utils/compact_labeling.py:70-94 | `get_compact_labels` is strictly ascending (sorted, no repeats) and holds exactly the collected labels |
| CompactLabeling.CategoryNamesDistinct | utils/compact_labeling.py:12-49 | the compact category names are pairwise different, and neither `not_important` nor `other` is one |
| CompactLabeling.CompactCategoryIff | utils/compact_labeling.py:76-81 | a category's name is present iff one of its keywords occurs in the lower-cased Chinese or English text |
| CompactLabeling.CompactFallbacks | utils/compact_labeling.py:83-92 | never empty. `not_important` iff no category matched and a cue occurs. `other` iff no category matched and no cue occurs. Either fallback is then the only label |
| CompactLabeling.SingleLabel | utils/compact_labeling.py:94 | a sorted, deduplicated list with the members of a one-label list is that one label |
| CompactLabeling.RelabelCompact | utils/compact_labeling.py:97-114 | at most one record per item; each has frequency at least the minimum, and labels equal to `get_compact_labels` of its own zh and en |
| CompactLabeling.RelabelThenFilter | utils/compact_labeling.py:100-114 | skipping low-frequency items before relabelling gives the same list as relabelling everything and then dropping low-frequency records |
| CompactLabeling.LabelDistribution | utils/compact_labeling.py:120-125 | the summary counts hold exactly the labels some record carries that are not context noise, each mapped to the number of its occurrences |
| ProcessCountries.CountryMapping | utils/process_countries.py:16-99 | `get_country_mapping` maps exactly the place names listed in the literal, each to the country of its last listing |
| ProcessCountries.ToMapLastWins | utils/process_countries.py:16-99 | a dict literal binds exactly its listed names, each to the country of its last listing |
| ProcessCountries.ToMapAppend | utils/process_countries.py:16-99 | a literal split in two binds the union of both halves' names; the second half's bindings override the first's |
| ProcessCountries.BirminghamListedTwice | utils/process_countries.py:69-92 | `Birmingham` is listed both as a United States city and as a United Kingdom city |
| ProcessCountries.BirminghamIsBritish | utils/process_countries.py:69-92 | the later listing wins: the mapping sends `Birmingham` to United Kingdom |
| ProcessCountries.CountryMembers | utils/process_countries.py:106-123 | the mentions collected for a country are exactly the place-labelled items whose English name maps to it |
| ProcessCountries.CountryWordsAndTotal | utils/process_countries.py:106-123 | a country's word list is those items' zh, en and frequency, in input order; its total is the sum of their frequencies |
| ProcessCountries.CountryListed | utils/process_countries.py:106-123 | a country gets an entry iff at least one item contributes to it |
| ProcessCountries.ProcessCountryFrequencies | utils/process_countries.py:101-125 | the frequency table lists each contributing country once, in first-contribution order, with the sum of its items' frequencies. Its word lists have the same keys, each listing the country's items in order |
| ProcessCountries.FrequenciesConserve | utils/process_countries.py:101-125 | the country frequencies add up to the total frequency of all contributing items |
| ProcessCountries.CreateOutput | utils/process_countries.py:127-144 | `total_mentions` is the sum of the frequencies and `unique_countries` the number of countries. The countries are a descending-frequency permutation of the table, each with a descending permutation of its words |
| ProcessCountries.CreateOutputStable | utils/process_countries.py:130-138 | countries with equal frequency keep their table order, and so do words with equal frequency |
| ProcessCountries.CountryAnalysisOf | utils/process_countries.py:101-144 | `total_mentions` is the frequency of every contributing item; `unique_countries` is the number of entries and of distinct contributing countries. A country has an entry iff some item contributes to it, and at most one. Entries are most frequent first. Each entry's frequency is the sum over its contributing items, whose words it lists (as a permutation) most frequent first, and its words' frequencies add up to its frequency |
| ProcessCountries.ListedNames | utils/process_countries.py:117-123 | the output's country names are a rearrangement of the countries in first-contribution order: each counted country exactly once, and no other |
| ProcessCountries.ListedCountry | utils/process_countries.py:117-138 | entry i describes its country: the summed frequency, the country's words as a permutation sorted most frequent first, and word frequencies adding up to the country's frequency |
| ProcessCountries.CountryWordsSum | utils/process_countries.py:117-123 | the frequencies of the words appended for a country add up to the frequency added to it |
| LabelCounts.LabelMentionsTotals | src/pages/ConsumerAnalysisPage.tsx:120-124 | one word's inner loop adds its frequency to a label once per occurrence, and counts each occurrence |
| LabelCounts.MentionsTotals | src/pages/ConsumerAnalysisPage.tsx:117-125 | the nested loops give each label the summed frequency of its occurrences and their number |
| LabelCounts.LabelCountPositive | src/pages/ConsumerAnalysisPage.tsx:117-125 | a label's count is positive iff some word carries it |
| LabelCounts.MentionedLabels | src/pages/ConsumerAnalysisPage.tsx:117-125 | the loops create an entry for a label iff some word carries it |
| LabelCounts.MentionsWeight | src/pages/ConsumerAnalysisPage.tsx:117-125 | the weight of all occurrences is each word's frequency times its number of labels |
| ConsumerAnalysis.HideLabels | src/pages/ConsumerAnalysisPage.tsx:112-113 | a word keeps zh, en and frequency; each label outside both hidden sets keeps all its copies, and a hidden label keeps none |
| ConsumerAnalysis.VisibleData | src/pages/ConsumerAnalysisPage.tsx:110-115 | `visibleData` has one word per input word, with unchanged fields. Every label in neither `ALWAYS_HIDE` nor `HIDDEN_BY_DEFAULT` keeps all its copies; every hidden label is gone |
| ConsumerAnalysis.VisibleKeepsOrder | src/pages/ConsumerAnalysisPage.tsx:110-115 | the labels a word keeps stay in their original order |
| ConsumerAnalysis.VisibleIdempotent | src/pages/ConsumerAnalysisPage.tsx:110-115 | hiding labels a second time changes nothing |
| ConsumerAnalysis.LabelStats | src/pages/ConsumerAnalysisPage.tsx:117-129 | `labelStats` is the ranking of the first-met label entries by descending total frequency |
| ConsumerAnalysis.RankedEntries | src/pages/ConsumerAnalysisPage.tsx:117-129 | each ranked entry carries its label's total frequency and word count |
| ConsumerAnalysis.RankedLabels | src/pages/ConsumerAnalysisPage.tsx:117-129 | a label is ranked iff some word carries it, and then exactly once |
| ConsumerAnalysis.RankedStable | src/pages/ConsumerAnalysisPage.tsx:126-128 | labels with equal totals keep the order in which the loops first met them |
| ConsumerAnalysis.RankedTotalsConserve | src/pages/ConsumerAnalysisPage.tsx:117-129 | the ranked totals add up to the sum over words of frequency times number of labels |
| ConsumerAnalysis.WordsForActive | src/pages/ConsumerAnalysisPage.tsx:131-137 | without a (non-empty) selected label the list is empty. Otherwise it holds min(50, number of carrying words) words, all carrying the label, most frequent first; no carrying word left out is more frequent than one kept |
| ConsumerAnalysis.Top100Base | src/pages/ConsumerAnalysisPage.tsx:152-154 | min(100, number of words) words, most frequent first, drawn from the visible words; no word left out is more frequent than one kept |
| ConsumerAnalysis.Top100LabelStats | src/pages/ConsumerAnalysisPage.tsx:156-168 | `top100LabelStats` is the label ranking of the top-100 words, in descending total frequency |
| ConsumerAnalysis.Top100SumsBounded | src/pages/ConsumerAnalysisPage.tsx:152-168 | restricting to the top 100 never raises a label's word count, and never raises its total when frequencies are non-negative |
| ConsumerAnalysis.Top100StatsBounded | src/pages/ConsumerAnalysisPage.tsx:152-168 | every top-100 label entry has a full-data entry for the same label with at least its count, and (for non-negative frequencies) at least its total |
| ConsumerAnalysis.Top100Filtered | src/pages/ConsumerAnalysisPage.tsx:170-174 | with no filter label the list is the top-100 list itself. Otherwise it is an in-order selection that keeps every copy of each word carrying the label and no copy of any other word |

## Left out

- File I/O: the `json.load`/`json.dump` calls, the `print` summaries, and
  the `__main__` blocks of the scripts.
- Fetching and rendering on the dashboard: the JSON fetch, the React state
  and effects, charts, scrolling, and the other pages.
- The label-distribution printouts of `add_labels.py` (lines 152-165) and
  `detailed_labeling.py` (lines 292-305). They only print, and they count
  every label, contextual tags included. `CompactLabeling.LabelDistribution`
  models only the count of `compact_labeling.py`, which skips the context
  noise.
- `translate_words.py` and the other helper scripts are not part of this
  model.
- The `percentage` field of `create_output` (`round(freq / total * 100,
  2)`) is floating point and is not modelled.
- Python `str.lower` and Unicode case mapping: `lower` is a parameter,
  and `to_lower`'s exception path cannot occur for strings.
- JSON values of the wrong type (a non-string `zh`, a non-numeric
  `frequency`, a non-list `labels`) are not modelled. A missing key is
  modelled: `.get` defaults in `compact_labeling.py` and
  `process_countries.py`, and `KeyError` in the other two drivers.
- DetailedLabeling.DetailedLabelList: Python does not fix the order of
  `list(set(labels))`. The model lists the labels in ascending order and
  promises only membership and no repeats.
- DetailedLabeling.CollectedLabels: the source lower-cases the English
  translation but never uses it. The parameter is kept and ignored.
- ConsumerAnalysis.LabelStats: JavaScript objects list integer-like keys
  first, and inherited names such as `constructor` or `__proto__` would
  misbehave. The model assumes label names are neither, and lists entries
  in first-met order.
- ConsumerAnalysis.Top100SumsBounded: the total bound holds only for
  non-negative frequencies. For negative ones the top-100 total can
  exceed the full total, so the bound is conditional.
- ConsumerAnalysis.Top100StatsBounded: the total bound is conditional on
  non-negative frequencies, for the same reason.
- ProcessCountries.CountryName: a place name that `mapping.get` does not
  find, or that maps to the empty string (falsy for `if country:`),
  contributes nothing. Other falsy values cannot occur, because the
  mapping holds only strings.
- JavaScript numbers are doubles and Python integers are unbounded. The
  model uses unbounded integers throughout, so it ignores precision loss
  beyond 2^53.
