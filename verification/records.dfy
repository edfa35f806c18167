/** The word-frequency records the scripts read and write: a JSON object
    with the Chinese word, its English translation, how often it was
    mentioned, and (after labelling) its category labels. */
module Records {
  import opened Seqs

  datatype Option<T> = None | Some(value: T)

  /** Indexing a Python dict with `item['key']` either yields the value or
      raises `KeyError` naming the key. */
  datatype Result<T> = Success(value: T) | MissingKey(key: string)

  /** One input record as a Python dict: any of its keys may be absent. */
  datatype RawItem = RawItem(
    zh: Option<string>,
    en: Option<string>,
    frequency: Option<int>,
    labels: Option<seq<string>>)

  /** A labelled word (`LabeledWord` on the dashboard side). */
  datatype Word = Word(zh: string, en: string, frequency: int, labels: seq<string>)

  function Frequency(w: Word): int {
    w.frequency
  }

  /** `dict.get(key, default)`. */
  function GetOr<T>(o: Option<T>, default: T): T {
    if o.Some? then o.value else default
  }

  // ---------------------------------------------------------------------
  // The labelling drivers shared by the two offline labellers

  /** `item[key]` on a record, raising `KeyError` for a missing key. */
  function Field<T>(o: Option<T>, key: string): (r: Result<T>)
    ensures r.Success? <==> o.Some?
    ensures r.Success? ==> r.value == o.value
    ensures r.MissingKey? ==> r.key == key
  {
    if o.Some? then Success(o.value) else MissingKey(key)
  }

  /** The condition of `[w for w in data if w['frequency'] >= min]`. */
  function KeepsFrequency(minFrequency: int): RawItem -> bool {
    (item: RawItem) => item.frequency.Some? && item.frequency.value >= minFrequency
  }

  /** The list comprehension `[w for w in data if w['frequency'] >= min]`,
      which raises on the first record without a frequency. */
  function FrequentItems(data: seq<RawItem>, minFrequency: int): (r: Result<seq<RawItem>>)
    ensures r.Success? <==> forall i :: 0 <= i < |data| ==> data[i].frequency.Some?
    ensures r.MissingKey? ==> r.key == "frequency"
    ensures r.Success? ==> r.value == Filter(data, KeepsFrequency(minFrequency))
  {
    if data == [] then Success([])
    else if data[0].frequency.None? then MissingKey("frequency")
    else
      match FrequentItems(data[1..], minFrequency)
      case MissingKey(k) => MissingKey(k)
      case Success(rest) =>
        Success(if data[0].frequency.value >= minFrequency then [data[0]] + rest else rest)
  }

  /** The output record for one kept item, with the labels `labeller`
      gives its Chinese and English words: `zh` is read before `en`, so a
      record missing both reports `zh`. */
  function LabelItem(item: RawItem, labeller: (string, string) -> seq<string>): (r: Result<Word>)
    requires item.frequency.Some?
    ensures r.Success? <==> item.zh.Some? && item.en.Some?
    ensures r.MissingKey? ==> r.key == (if item.zh.None? then "zh" else "en")
    ensures r.Success? ==>
      r.value == Word(item.zh.value, item.en.value, item.frequency.value, labeller(item.zh.value, item.en.value))
  {
    match Field(item.zh, "zh")
    case MissingKey(k) => MissingKey(k)
    case Success(zh) =>
      match Field(item.en, "en")
      case MissingKey(k) => MissingKey(k)
      case Success(en) => Success(Word(zh, en, item.frequency.value, labeller(zh, en)))
  }

  /** The labelling loop over the kept items, stopping at the first
      missing field. */
  function LabelAll(items: seq<RawItem>, labeller: (string, string) -> seq<string>): (r: Result<seq<Word>>)
    requires forall i :: 0 <= i < |items| ==> items[i].frequency.Some?
    ensures r.Success? <==> forall i :: 0 <= i < |items| ==> items[i].zh.Some? && items[i].en.Some?
    ensures r.MissingKey? ==> r.key == "zh" || r.key == "en"
    ensures r.Success? ==> |r.value| == |items|
    ensures r.Success? ==> forall i :: 0 <= i < |items| ==>
      && items[i].zh.Some? && items[i].en.Some?
      && r.value[i] == Word(items[i].zh.value, items[i].en.value, items[i].frequency.value,
                            labeller(items[i].zh.value, items[i].en.value))
  {
    if items == [] then Success([])
    else
      match LabelItem(items[0], labeller)
      case MissingKey(k) => MissingKey(k)
      case Success(w) =>
        match LabelAll(items[1..], labeller)
        case MissingKey(k) => MissingKey(k)
        case Success(rest) => Success([w] + rest)
  }

  /** The input a labelling script processes without raising: every item
      has a frequency, and every item it keeps has both words. Items below
      the minimum are never asked for their words. */
  predicate Labellable(data: seq<RawItem>, minFrequency: int) {
    && (forall i :: 0 <= i < |data| ==> data[i].frequency.Some?)
    && (forall x :: x in Filter(data, KeepsFrequency(minFrequency)) ==> x.zh.Some? && x.en.Some?)
  }

  /** A labelling script without its file I/O: the items at or above the
      minimum frequency, in order, each with its labels; or the key the
      script fails on. The filter reads every frequency before any word is
      labelled, so a missing frequency anywhere is reported first. */
  function LabelFrequent(data: seq<RawItem>, minFrequency: int, labeller: (string, string) -> seq<string>): (r: Result<seq<Word>>)
    ensures r.Success? <==> Labellable(data, minFrequency)
    ensures r.MissingKey? && r.key == "frequency" <==> exists i :: 0 <= i < |data| && data[i].frequency.None?
    ensures r.MissingKey? ==> r.key in {"frequency", "zh", "en"}
    ensures r.Success? ==> forall w :: w in r.value ==> w.frequency >= minFrequency
    ensures r.Success? ==>
      var kept := Filter(data, KeepsFrequency(minFrequency));
      && |r.value| == |kept|
      && forall i :: 0 <= i < |kept| ==>
        && kept[i].zh.Some? && kept[i].en.Some? && kept[i].frequency.Some?
        && r.value[i] == Word(kept[i].zh.value, kept[i].en.value, kept[i].frequency.value,
                              labeller(kept[i].zh.value, kept[i].en.value))
  {
    match FrequentItems(data, minFrequency)
    case MissingKey(k) => MissingKey(k)
    case Success(kept) =>
      FilterMembers(data, KeepsFrequency(minFrequency));
      assert forall i :: 0 <= i < |kept| ==> kept[i] in kept;
      LabelAll(kept, labeller)
  }
}
