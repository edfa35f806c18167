/** The country aggregation behind the country-analysis data: words
    labelled as a country or a city are normalised to a country through a
    fixed name table, their frequencies summed per country, and the result
    listed most frequent first with each country's words. */
module ProcessCountries {
  import opened Seqs
  import opened Sorting
  import opened Tally
  import opened Records

  // ---------------------------------------------------------------------
  // The name table

  /** One `'name': 'country'` entry of the dict literal. */
  datatype Binding = Binding(name: string, country: string)

  /** Australian variants and cities, `get_country_mapping` lines 20-23. */
  const AustraliaNames: seq<Binding> := [
    Binding("Australia", "Australia"),
    Binding("Australian", "Australia"),
    Binding("Australian cattle", "Australia"),
    Binding("Australian dollar", "Australia"),
    Binding("Western Australia", "Australia"),
    Binding("Australians", "Australia"),
    Binding("Sydney", "Australia"),
    Binding("Melbourne", "Australia"),
    Binding("Brisbane", "Australia"),
    Binding("Perth", "Australia"),
    Binding("Adelaide", "Australia"),
    Binding("Canberra", "Australia"),
    Binding("Gold Coast", "Australia")
  ]

  /** Japanese variants and cities, `get_country_mapping` lines 26-28. */
  const JapanNames: seq<Binding> := [
    Binding("Japan", "Japan"),
    Binding("Japanese", "Japan"),
    Binding("Made in Japan", "Japan"),
    Binding("Tokyo", "Japan"),
    Binding("Osaka", "Japan"),
    Binding("Kyoto", "Japan"),
    Binding("Yokohama", "Japan"),
    Binding("Nagoya", "Japan"),
    Binding("Sapporo", "Japan"),
    Binding("Kobe", "Japan"),
    Binding("Fukuoka", "Japan")
  ]

  /** New Zealand variants and cities, `get_country_mapping` lines 31-33. */
  const NewZealandNames: seq<Binding> := [
    Binding("New Zealand", "New Zealand"),
    Binding("New Zealand Dollar", "New Zealand"),
    Binding("Auckland", "New Zealand"),
    Binding("Wellington", "New Zealand"),
    Binding("Christchurch", "New Zealand"),
    Binding("Hamilton", "New Zealand"),
    Binding("Tauranga", "New Zealand"),
    Binding("Napier", "New Zealand")
  ]

  /** United States variants and cities, `get_country_mapping` lines 36-69. */
  const UnitedStatesNames: seq<Binding> := [
    Binding("USA", "United States"),
    Binding("U.S.", "United States"),
    Binding("USDA", "United States"),
    Binding("Imports from the United States", "United States"),
    Binding("New York", "United States"),
    Binding("Los Angeles", "United States"),
    Binding("Chicago", "United States"),
    Binding("Houston", "United States"),
    Binding("Phoenix", "United States"),
    Binding("Philadelphia", "United States"),
    Binding("San Antonio", "United States"),
    Binding("San Diego", "United States"),
    Binding("Dallas", "United States"),
    Binding("San Jose", "United States"),
    Binding("Austin", "United States"),
    Binding("Jacksonville", "United States"),
    Binding("Fort Worth", "United States"),
    Binding("Columbus", "United States"),
    Binding("Charlotte", "United States"),
    Binding("San Francisco", "United States"),
    Binding("Indianapolis", "United States"),
    Binding("Seattle", "United States"),
    Binding("Denver", "United States"),
    Binding("Washington", "United States"),
    Binding("Boston", "United States"),
    Binding("El Paso", "United States"),
    Binding("Nashville", "United States"),
    Binding("Detroit", "United States"),
    Binding("Oklahoma City", "United States"),
    Binding("Portland", "United States"),
    Binding("Las Vegas", "United States"),
    Binding("Memphis", "United States"),
    Binding("Louisville", "United States"),
    Binding("Baltimore", "United States"),
    Binding("Milwaukee", "United States"),
    Binding("Albuquerque", "United States"),
    Binding("Tucson", "United States"),
    Binding("Fresno", "United States"),
    Binding("Sacramento", "United States"),
    Binding("Mesa", "United States"),
    Binding("Kansas City", "United States"),
    Binding("Atlanta", "United States"),
    Binding("Long Beach", "United States"),
    Binding("Colorado Springs", "United States"),
    Binding("Raleigh", "United States"),
    Binding("Miami", "United States"),
    Binding("Virginia Beach", "United States"),
    Binding("Omaha", "United States"),
    Binding("Oakland", "United States"),
    Binding("Minneapolis", "United States"),
    Binding("Tampa", "United States"),
    Binding("Tulsa", "United States"),
    Binding("Arlington", "United States"),
    Binding("New Orleans", "United States"),
    Binding("Wichita", "United States"),
    Binding("Cleveland", "United States"),
    Binding("Bakersfield", "United States"),
    Binding("Aurora", "United States"),
    Binding("Anaheim", "United States"),
    Binding("Honolulu", "United States"),
    Binding("Santa Ana", "United States"),
    Binding("Corpus Christi", "United States"),
    Binding("Riverside", "United States"),
    Binding("Lexington", "United States"),
    Binding("Stockton", "United States"),
    Binding("Henderson", "United States"),
    Binding("Saint Paul", "United States"),
    Binding("St. Louis", "United States"),
    Binding("St. Petersburg", "United States"),
    Binding("Cincinnati", "United States"),
    Binding("Pittsburgh", "United States"),
    Binding("Anchorage", "United States"),
    Binding("Greensboro", "United States"),
    Binding("Plano", "United States"),
    Binding("Newark", "United States"),
    Binding("Durham", "United States"),
    Binding("Lincoln", "United States"),
    Binding("Orlando", "United States"),
    Binding("Chula Vista", "United States"),
    Binding("Jersey City", "United States"),
    Binding("Chandler", "United States"),
    Binding("Madison", "United States"),
    Binding("Laredo", "United States"),
    Binding("Winston-Salem", "United States"),
    Binding("Lubbock", "United States"),
    Binding("Garland", "United States"),
    Binding("Glendale", "United States"),
    Binding("Hialeah", "United States"),
    Binding("Reno", "United States"),
    Binding("Baton Rouge", "United States"),
    Binding("Irvine", "United States"),
    Binding("Chesapeake", "United States"),
    Binding("Irving", "United States"),
    Binding("Scottsdale", "United States"),
    Binding("North Las Vegas", "United States"),
    Binding("Fremont", "United States"),
    Binding("Gilbert", "United States"),
    Binding("San Bernardino", "United States"),
    Binding("Boise", "United States"),
    Binding("Birmingham", "United States")
  ]

  /** Chinese variants and cities, `get_country_mapping` lines 72-85. */
  const ChinaNames: seq<Binding> := [
    Binding("China", "China"),
    Binding("domestic", "China"),
    Binding("Domestic", "China"),
    Binding("local", "China"),
    Binding("Beijing", "China"),
    Binding("Shanghai", "China"),
    Binding("Guangzhou", "China"),
    Binding("Shenzhen", "China"),
    Binding("Tianjin", "China"),
    Binding("Chongqing", "China"),
    Binding("Chengdu", "China"),
    Binding("Hangzhou", "China"),
    Binding("Wuhan", "China"),
    Binding("Xi'an", "China"),
    Binding("Nanjing", "China"),
    Binding("Zhengzhou", "China"),
    Binding("Jinan", "China"),
    Binding("Qingdao", "China"),
    Binding("Dalian", "China"),
    Binding("Ningbo", "China"),
    Binding("Xiamen", "China"),
    Binding("Kunming", "China"),
    Binding("Harbin", "China"),
    Binding("Changsha", "China"),
    Binding("Fuzhou", "China"),
    Binding("Shijiazhuang", "China"),
    Binding("Jilin", "China"),
    Binding("Hefei", "China"),
    Binding("Nanchang", "China"),
    Binding("Shantou", "China"),
    Binding("Zhongshan", "China"),
    Binding("Huizhou", "China"),
    Binding("Zhuhai", "China"),
    Binding("Dongguan", "China"),
    Binding("Foshan", "China"),
    Binding("Suzhou", "China"),
    Binding("Wuxi", "China"),
    Binding("Changzhou", "China"),
    Binding("Nantong", "China"),
    Binding("Yangzhou", "China"),
    Binding("Zhenjiang", "China"),
    Binding("Taizhou", "China"),
    Binding("Shaoxing", "China"),
    Binding("Jinhua", "China"),
    Binding("Quzhou", "China"),
    Binding("Zhoushan", "China"),
    Binding("Lishui", "China"),
    Binding("Huzhou", "China"),
    Binding("Jiaxing", "China"),
    Binding("Hangzhou", "China"),
    Binding("Ningbo", "China"),
    Binding("Wenzhou", "China"),
    Binding("Lishui", "China"),
    Binding("Jinhua", "China"),
    Binding("Quzhou", "China"),
    Binding("Zhoushan", "China")
  ]

  /** Other countries and their major cities, `get_country_mapping` lines 88-98. */
  const OtherNames: seq<Binding> := [
    Binding("Singapore", "Singapore"),
    Binding("Brazil", "Brazil"),
    Binding("Sao Paulo", "Brazil"),
    Binding("Rio de Janeiro", "Brazil"),
    Binding("Brasilia", "Brazil"),
    Binding("Argentina", "Argentina"),
    Binding("Buenos Aires", "Argentina"),
    Binding("Cordoba", "Argentina"),
    Binding("South Korea", "South Korea"),
    Binding("Seoul", "South Korea"),
    Binding("Busan", "South Korea"),
    Binding("Incheon", "South Korea"),
    Binding("U.K.", "United Kingdom"),
    Binding("London", "United Kingdom"),
    Binding("Manchester", "United Kingdom"),
    Binding("Birmingham", "United Kingdom"),
    Binding("Spain", "Spain"),
    Binding("Madrid", "Spain"),
    Binding("Barcelona", "Spain"),
    Binding("Valencia", "Spain"),
    Binding("Malaysia", "Malaysia"),
    Binding("Kuala Lumpur", "Malaysia"),
    Binding("George Town", "Malaysia"),
    Binding("Ipoh", "Malaysia"),
    Binding("Chile", "Chile"),
    Binding("Santiago", "Chile"),
    Binding("Valparaiso", "Chile"),
    Binding("Concepcion", "Chile"),
    Binding("Hongkong", "Hong Kong"),
    Binding("Hong Kong", "Hong Kong"),
    Binding("Switzerland", "Switzerland"),
    Binding("Zurich", "Switzerland"),
    Binding("Geneva", "Switzerland"),
    Binding("Bern", "Switzerland"),
    Binding("Russia", "Russia"),
    Binding("Moscow", "Russia"),
    Binding("Saint Petersburg", "Russia"),
    Binding("Novosibirsk", "Russia")
  ]

  /** The dict a Python dict literal builds: entries are stored in order,
      so a repeated key keeps the value of its last entry. */
  function ToMap(bs: seq<Binding>): map<string, string> {
    if bs == [] then map[]
    else ToMap(bs[..|bs| - 1])[bs[|bs| - 1].name := bs[|bs| - 1].country]
  }

  /** A key is in the dict exactly when some entry names it, and its value
      is the one of the last such entry. */
  lemma {:induction false} ToMapLastWins(bs: seq<Binding>, k: string)
    ensures k in ToMap(bs) <==> exists i :: 0 <= i < |bs| && bs[i].name == k
    ensures forall i :: 0 <= i < |bs| && bs[i].name == k && (forall j :: i < j < |bs| ==> bs[j].name != k) ==>
      ToMap(bs)[k] == bs[i].country
  {
    if bs != [] {
      var init := bs[..|bs| - 1];
      ToMapLastWins(init, k);
      assert forall i :: 0 <= i < |init| ==> init[i] == bs[i];
    }
  }

  /** Entries appended later override earlier ones and leave other keys
      alone. */
  lemma {:induction false} ToMapAppend(a: seq<Binding>, b: seq<Binding>)
    ensures forall k :: k in ToMap(a + b) <==> k in ToMap(a) || k in ToMap(b)
    ensures forall k :: k in ToMap(b) ==> ToMap(a + b)[k] == ToMap(b)[k]
    ensures forall k :: k in ToMap(a) && k !in ToMap(b) ==> ToMap(a + b)[k] == ToMap(a)[k]
  {
    if b != [] {
      var init := b[..|b| - 1];
      ToMapAppend(a, init);
      assert (a + b)[..|a + b| - 1] == a + init;
    } else {
      assert a + b == a;
    }
  }

  /** Entry `i` is the last one with its name. */
  ghost predicate LastListing(bs: seq<Binding>, i: int) {
    0 <= i < |bs| && forall j :: i < j < |bs| ==> bs[j].name != bs[i].name
  }

  /** The entries of the mapping literal, in the order they are written. */
  const MappingEntries: seq<Binding> :=
    AustraliaNames + JapanNames + NewZealandNames + UnitedStatesNames + ChinaNames + OtherNames

  /** `get_country_mapping`: the dict maps exactly the names listed, each
      to the country of its last listing. */
  function CountryMapping(): (r: map<string, string>)
    ensures forall k :: k in r <==> exists i :: 0 <= i < |MappingEntries| && MappingEntries[i].name == k
    ensures forall i :: LastListing(MappingEntries, i) ==>
      MappingEntries[i].name in r && r[MappingEntries[i].name] == MappingEntries[i].country
  {
    var r := ToMap(MappingEntries);
    forall k ensures k in r <==> exists i :: 0 <= i < |MappingEntries| && MappingEntries[i].name == k {
      ToMapLastWins(MappingEntries, k);
    }
    forall i | LastListing(MappingEntries, i)
      ensures MappingEntries[i].name in r && r[MappingEntries[i].name] == MappingEntries[i].country
    {
      ToMapLastWins(MappingEntries, MappingEntries[i].name);
    }
    r
  }

  /** Birmingham is listed under the United States and again under the
      United Kingdom ... */
  lemma BirminghamListedTwice()
    ensures Binding("Birmingham", "United States") in UnitedStatesNames
    ensures Binding("Birmingham", "United Kingdom") in OtherNames
  {
    assert UnitedStatesNames[|UnitedStatesNames| - 1] == Binding("Birmingham", "United States");
    assert OtherNames[15] == Binding("Birmingham", "United Kingdom");
  }

  /** ... and the later entry is the one the dict keeps. */
  lemma BirminghamIsBritish()
    ensures "Birmingham" in CountryMapping() && CountryMapping()["Birmingham"] == "United Kingdom"
  {
    NoLaterBirmingham();
    LaterEntryWins(AustraliaNames + JapanNames + NewZealandNames + UnitedStatesNames + ChinaNames, OtherNames, 15);
  }

  /** Entry `i` of `b` is the last one with its name, so `b` appended to
      any `a` keeps it. */
  lemma LaterEntryWins(a: seq<Binding>, b: seq<Binding>, i: nat)
    requires i < |b| && forall j :: i < j < |b| ==> b[j].name != b[i].name
    ensures b[i].name in ToMap(a + b) && ToMap(a + b)[b[i].name] == b[i].country
  {
    ToMapAppend(a, b);
    ToMapLastWins(b, b[i].name);
  }

  lemma NoLaterBirmingham()
    ensures OtherNames[15].name == "Birmingham" && OtherNames[15].country == "United Kingdom"
    ensures forall j :: 15 < j < |OtherNames| ==> OtherNames[j].name != "Birmingham"
  {
  }

  // ---------------------------------------------------------------------
  // process_country_frequencies

  /** One word counted for a country, as listed in the output. */
  datatype Mention = Mention(zh: string, en: string, frequency: int)

  function MentionFrequency(m: Mention): int {
    m.frequency
  }

  /** The item's labels mark it as a country or a city. */
  predicate IsPlace(item: RawItem) {
    var labels := GetOr(item.labels, []);
    "origin_country" in labels || "city_region" in labels
  }

  /** `mapping.get(en_name)`, with `en` defaulting to the empty string;
      the empty string stands for a missing entry, which Python's
      `if country:` treats alike. */
  function CountryName(mapping: map<string, string>, item: RawItem): string {
    var en := GetOr(item.en, "");
    if en in mapping then mapping[en] else ""
  }

  /** The item is counted: it is a place and its English name maps to a
      (non-empty) country. */
  function Contributes(mapping: map<string, string>): RawItem -> bool {
    item => IsPlace(item) && CountryName(mapping, item) != ""
  }

  /** The item is counted for country `c`. */
  function ContributesTo(mapping: map<string, string>, c: string): RawItem -> bool {
    item => Contributes(mapping)(item) && CountryName(mapping, item) == c
  }

  /** The mention an item adds, with the defaults of `process_country_frequencies`. */
  function MentionOf(item: RawItem): Mention {
    Mention(GetOr(item.zh, ""), GetOr(item.en, ""), GetOr(item.frequency, 0))
  }

  /** The mention, tagged with its country and weighted by its frequency. */
  function Contribution(mapping: map<string, string>): RawItem -> Tagged<Mention> {
    item => Tagged(CountryName(mapping, item), GetOr(item.frequency, 0), MentionOf(item))
  }

  /** The contributions of the counted items, in input order. */
  function Contributions(data: seq<RawItem>, mapping: map<string, string>): seq<Tagged<Mention>> {
    Map(Filter(data, Contributes(mapping)), Contribution(mapping))
  }

  /** A country's contributions are exactly its counted items, in input
      order. */
  lemma CountryMembers(data: seq<RawItem>, mapping: map<string, string>, c: string)
    ensures Members(Contributions(data, mapping), c)
      == Map(Filter(data, ContributesTo(mapping, c)), Contribution(mapping))
  {
    var kept := Filter(data, Contributes(mapping));
    FilterMembers(data, Contributes(mapping));
    MapFilterCommute(kept, ContributesTo(mapping, c), Contribution(mapping), TagIs(c));
    FilterNarrow(data, Contributes(mapping), ContributesTo(mapping, c));
  }

  /** The words listed under a country are the mentions of its counted
      items in input order, and its frequency is the sum of theirs. */
  lemma CountryWordsAndTotal(data: seq<RawItem>, mapping: map<string, string>, c: string)
    ensures Group(Contributions(data, mapping), c) == Map(Filter(data, ContributesTo(mapping, c)), MentionOf)
    ensures Total(Contributions(data, mapping), c) == SumBy(Filter(data, ContributesTo(mapping, c)), FrequencyOrZero)
  {
    var mine := Filter(data, ContributesTo(mapping, c));
    var tagged := Map(mine, Contribution(mapping));
    CountryMembers(data, mapping, c);
    assert Map(tagged, ItemOf) == Map(mine, MentionOf);
    SumByTagged(mine, mapping);
  }

  function FrequencyOrZero(item: RawItem): int {
    GetOr(item.frequency, 0)
  }

  lemma {:induction false} SumByTagged(items: seq<RawItem>, mapping: map<string, string>)
    ensures SumBy(Map(items, Contribution(mapping)), WeightOf) == SumBy(items, FrequencyOrZero)
  {
    if items != [] {
      SumByTagged(items[1..], mapping);
      assert Map(items, Contribution(mapping))[1..] == Map(items[1..], Contribution(mapping));
    }
  }

  /** One `frequencies` dict entry; the dict's order is the order of first
      insertion. */
  datatype CountryTotal = CountryTotal(name: string, frequency: int)

  function NameOf(t: CountryTotal): string {
    t.name
  }

  function TotalOf(t: CountryTotal): int {
    t.frequency
  }

  /** A country is listed exactly when some item is counted for it. */
  lemma CountryListed(data: seq<RawItem>, mapping: map<string, string>, c: string)
    ensures Occurs(Contributions(data, mapping), c) <==> Filter(data, ContributesTo(mapping, c)) != []
  {
    CountryMembers(data, mapping, c);
    MembersWitness(Contributions(data, mapping), c);
    if Occurs(Contributions(data, mapping), c) && Members(Contributions(data, mapping), c) == [] {
      AbsentKey(Contributions(data, mapping), c);
    }
  }

  /** The frequency total of a country read off the accumulated entries. */
  function TotalIn(acc: Accumulator<Mention>): string -> CountryTotal {
    c => CountryTotal(c, if c in acc.entries then acc.entries[c].total else 0)
  }

  /** `process_country_frequencies`: the countries in order of their first
      counted item, each with the sum of the frequencies counted for it, and
      the words counted for each country in input order. */
  method ProcessCountryFrequencies(data: seq<RawItem>, mapping: map<string, string>)
    returns (frequencies: seq<CountryTotal>, countryWords: map<string, seq<Mention>>)
    ensures Map(frequencies, NameOf) == Keys(Contributions(data, mapping))
    ensures forall i :: 0 <= i < |frequencies| ==>
      frequencies[i].frequency == SumBy(Filter(data, ContributesTo(mapping, frequencies[i].name)), FrequencyOrZero)
    ensures forall c :: c in countryWords <==> c in Map(frequencies, NameOf)
    ensures forall c :: c in countryWords ==> countryWords[c] == Map(Filter(data, ContributesTo(mapping, c)), MentionOf)
  {
    var contributions := Contributions(data, mapping);
    var acc := Accumulate(contributions);
    frequencies := Map(acc.order, TotalIn(acc));
    assert Map(frequencies, NameOf) == acc.order;
    countryWords := map c | c in acc.entries :: acc.entries[c].items;
    forall c | c in acc.entries
      ensures acc.entries[c].total == SumBy(Filter(data, ContributesTo(mapping, c)), FrequencyOrZero)
      ensures acc.entries[c].items == Map(Filter(data, ContributesTo(mapping, c)), MentionOf)
    {
      CountryWordsAndTotal(data, mapping, c);
    }
  }

  /** The per-country sums add up to the frequencies of all counted items. */
  lemma FrequenciesConserve(data: seq<RawItem>, mapping: map<string, string>, frequencies: seq<CountryTotal>)
    requires Map(frequencies, NameOf) == Keys(Contributions(data, mapping))
    requires forall i :: 0 <= i < |frequencies| ==>
      frequencies[i].frequency == SumBy(Filter(data, ContributesTo(mapping, frequencies[i].name)), FrequencyOrZero)
    ensures SumBy(frequencies, TotalOf) == SumBy(Filter(data, Contributes(mapping)), FrequencyOrZero)
  {
    var contributions := Contributions(data, mapping);
    forall i | 0 <= i < |frequencies|
      ensures frequencies[i].frequency == Total(contributions, frequencies[i].name)
    {
      CountryWordsAndTotal(data, mapping, frequencies[i].name);
    }
    TotalsSumOver(contributions, frequencies);
    TotalsConserveWeight(contributions);
    SumByTagged(Filter(data, Contributes(mapping)), mapping);
  }

  lemma {:induction false} TotalsSumOver(contributions: seq<Tagged<Mention>>, frequencies: seq<CountryTotal>)
    requires forall i :: 0 <= i < |frequencies| ==> frequencies[i].frequency == Total(contributions, frequencies[i].name)
    ensures SumBy(frequencies, TotalOf) == TotalsOver(contributions, Map(frequencies, NameOf))
  {
    if frequencies != [] {
      TotalsSumOver(contributions, frequencies[1..]);
      assert Map(frequencies, NameOf)[1..] == Map(frequencies[1..], NameOf);
    }
  }

  // ---------------------------------------------------------------------
  // create_output

  /** One country of the output, without the rounded percentage. */
  datatype CountryEntry = CountryEntry(name: string, frequency: int, words: seq<Mention>)

  /** The output document. */
  datatype CountryAnalysis = CountryAnalysis(countries: seq<CountryEntry>, totalMentions: int, uniqueCountries: nat)

  function EntryFrequency(e: CountryEntry): int {
    e.frequency
  }

  function EntryTotal(e: CountryEntry): CountryTotal {
    CountryTotal(e.name, e.frequency)
  }

  /** `country_words.get(country, [])`. */
  function WordsOf(countryWords: map<string, seq<Mention>>, c: string): seq<Mention> {
    if c in countryWords then countryWords[c] else []
  }

  /** One country's output entry: its words most frequent first, ties in
      the order they were counted. */
  function EntryFor(countryWords: map<string, seq<Mention>>): CountryTotal -> CountryEntry {
    (t: CountryTotal) => CountryEntry(t.name, t.frequency, SortDesc(WordsOf(countryWords, t.name), MentionFrequency))
  }

  /** `create_output`: the countries most frequent first, each with its
      sorted words; the sum of all country frequencies; and the number of
      countries. */
  function CreateOutput(frequencies: seq<CountryTotal>, countryWords: map<string, seq<Mention>>): (r: CountryAnalysis)
    ensures r.totalMentions == SumBy(frequencies, TotalOf)
    ensures r.uniqueCountries == |frequencies| == |r.countries|
    ensures DescendingBy(r.countries, EntryFrequency)
    ensures multiset(Map(r.countries, EntryTotal)) == multiset(frequencies)
    ensures forall i :: 0 <= i < |r.countries| ==>
      && multiset(r.countries[i].words) == multiset(WordsOf(countryWords, r.countries[i].name))
      && DescendingBy(r.countries[i].words, MentionFrequency)
  {
    var sorted := SortDesc(frequencies, TotalOf);
    var countries := Map(sorted, EntryFor(countryWords));
    assert Map(countries, EntryTotal) == sorted;
    CountryAnalysis(countries, SumBy(frequencies, TotalOf), |frequencies|)
  }

  /** Countries of equal frequency keep their dict order, and so do the
      words of equal frequency within a country. */
  lemma CreateOutputStable(frequencies: seq<CountryTotal>, countryWords: map<string, seq<Mention>>, k: int)
    ensures var r := CreateOutput(frequencies, countryWords);
      Filter(Map(r.countries, EntryTotal), KeyIs(TotalOf, k)) == Filter(frequencies, KeyIs(TotalOf, k))
    ensures var r := CreateOutput(frequencies, countryWords);
      forall i :: 0 <= i < |r.countries| ==>
        Filter(r.countries[i].words, KeyIs(MentionFrequency, k))
          == Filter(WordsOf(countryWords, r.countries[i].name), KeyIs(MentionFrequency, k))
  {
    var r := CreateOutput(frequencies, countryWords);
    var sorted := SortDesc(frequencies, TotalOf);
    assert Map(r.countries, EntryTotal) == sorted;
    SortDescStable(frequencies, TotalOf, k);
    forall i | 0 <= i < |r.countries|
      ensures Filter(r.countries[i].words, KeyIs(MentionFrequency, k))
        == Filter(WordsOf(countryWords, r.countries[i].name), KeyIs(MentionFrequency, k))
    {
      SortDescStable(WordsOf(countryWords, r.countries[i].name), MentionFrequency, k);
    }
  }

  /** The whole script on an in-memory input: `total_mentions` is the sum
      of the frequencies of every counted item; every counted country is
      listed once, most frequent first; and each listed country's frequency
      is the sum over the items counted for it, whose words it lists most
      frequent first and which add up to that frequency. */
  method CountryAnalysisOf(data: seq<RawItem>, mapping: map<string, string>) returns (r: CountryAnalysis)
    ensures r.totalMentions == SumBy(Filter(data, Contributes(mapping)), FrequencyOrZero)
    ensures r.uniqueCountries == |r.countries| == |Keys(Contributions(data, mapping))|
    ensures forall c :: c in Map(r.countries, EntryName) <==> Filter(data, ContributesTo(mapping, c)) != []
    ensures Distinct(Map(r.countries, EntryName))
    ensures DescendingBy(r.countries, EntryFrequency)
    ensures forall e :: e in r.countries ==>
      && e.frequency == SumBy(Filter(data, ContributesTo(mapping, e.name)), FrequencyOrZero)
      && multiset(e.words) == multiset(Map(Filter(data, ContributesTo(mapping, e.name)), MentionOf))
      && DescendingBy(e.words, MentionFrequency)
      && SumBy(e.words, MentionFrequency) == e.frequency
  {
    var frequencies, countryWords := ProcessCountryFrequencies(data, mapping);
    FrequenciesConserve(data, mapping, frequencies);
    r := CreateOutput(frequencies, countryWords);
    ListedNames(data, mapping, frequencies, countryWords);
    ListedCountries(data, mapping, frequencies, countryWords);
  }

  /** Every entry of the output describes the items counted for it. */
  lemma ListedCountries(data: seq<RawItem>, mapping: map<string, string>, frequencies: seq<CountryTotal>,
                        countryWords: map<string, seq<Mention>>)
    requires forall i :: 0 <= i < |frequencies| ==>
      frequencies[i].frequency == SumBy(Filter(data, ContributesTo(mapping, frequencies[i].name)), FrequencyOrZero)
    requires forall c :: c in countryWords <==> c in Map(frequencies, NameOf)
    requires forall c :: c in countryWords ==> countryWords[c] == Map(Filter(data, ContributesTo(mapping, c)), MentionOf)
    ensures forall e :: e in CreateOutput(frequencies, countryWords).countries ==>
      && e.frequency == SumBy(Filter(data, ContributesTo(mapping, e.name)), FrequencyOrZero)
      && multiset(e.words) == multiset(Map(Filter(data, ContributesTo(mapping, e.name)), MentionOf))
      && DescendingBy(e.words, MentionFrequency)
      && SumBy(e.words, MentionFrequency) == e.frequency
  {
    var countries := CreateOutput(frequencies, countryWords).countries;
    forall e | e in countries
      ensures e.frequency == SumBy(Filter(data, ContributesTo(mapping, e.name)), FrequencyOrZero)
      ensures multiset(e.words) == multiset(Map(Filter(data, ContributesTo(mapping, e.name)), MentionOf))
      ensures DescendingBy(e.words, MentionFrequency)
      ensures SumBy(e.words, MentionFrequency) == e.frequency
    {
      var i :| 0 <= i < |countries| && countries[i] == e;
      ListedCountry(data, mapping, frequencies, countryWords, i);
    }
  }

  function EntryName(e: CountryEntry): string {
    e.name
  }

  /** The words counted for a country add up to its frequency. */
  lemma CountryWordsSum(data: seq<RawItem>, mapping: map<string, string>, c: string)
    ensures SumBy(Map(Filter(data, ContributesTo(mapping, c)), MentionOf), MentionFrequency)
         == SumBy(Filter(data, ContributesTo(mapping, c)), FrequencyOrZero)
  {
    var contributions := Contributions(data, mapping);
    CountryWordsAndTotal(data, mapping, c);
    forall e | e in contributions
      ensures e.weight == MentionFrequency(e.item)
    {
      var k :| 0 <= k < |contributions| && contributions[k] == e;
    }
    GroupSumIsTotal(contributions, c, MentionFrequency);
  }

  /** Entry `i` of the output is country `i` of the sorted table, with its
      words sorted. */
  lemma OutputEntry(frequencies: seq<CountryTotal>, countryWords: map<string, seq<Mention>>, i: nat)
    requires i < |frequencies|
    ensures var t := SortDesc(frequencies, TotalOf)[i];
      CreateOutput(frequencies, countryWords).countries[i]
        == CountryEntry(t.name, t.frequency, SortDesc(WordsOf(countryWords, t.name), MentionFrequency))
  {
  }

  /** The output lists the counted countries, each once. */
  lemma ListedNames(data: seq<RawItem>, mapping: map<string, string>, frequencies: seq<CountryTotal>,
                    countryWords: map<string, seq<Mention>>)
    requires Map(frequencies, NameOf) == Keys(Contributions(data, mapping))
    ensures var names := Map(CreateOutput(frequencies, countryWords).countries, EntryName);
      && multiset(names) == multiset(Keys(Contributions(data, mapping)))
      && Distinct(names)
      && forall c :: c in names <==> Filter(data, ContributesTo(mapping, c)) != []
  {
    var sorted := SortDesc(frequencies, TotalOf);
    var names := Map(CreateOutput(frequencies, countryWords).countries, EntryName);
    assert names == Map(sorted, NameOf) by {
      forall i | 0 <= i < |names| ensures names[i] == Map(sorted, NameOf)[i] {
        OutputEntry(frequencies, countryWords, i);
      }
    }
    MapPermutation(sorted, frequencies, NameOf);
    DistinctPermutation(Keys(Contributions(data, mapping)), names);
    forall c ensures c in names <==> Filter(data, ContributesTo(mapping, c)) != [] {
      assert c in names <==> c in multiset(names);
      CountryListed(data, mapping, c);
    }
  }

  /** A listed country's entry describes the items counted for it. */
  lemma ListedCountry(data: seq<RawItem>, mapping: map<string, string>, frequencies: seq<CountryTotal>,
                      countryWords: map<string, seq<Mention>>, i: nat)
    requires forall i :: 0 <= i < |frequencies| ==>
      frequencies[i].frequency == SumBy(Filter(data, ContributesTo(mapping, frequencies[i].name)), FrequencyOrZero)
    requires forall c :: c in countryWords <==> c in Map(frequencies, NameOf)
    requires forall c :: c in countryWords ==> countryWords[c] == Map(Filter(data, ContributesTo(mapping, c)), MentionOf)
    requires i < |frequencies|
    ensures var e := CreateOutput(frequencies, countryWords).countries[i];
      && e.frequency == SumBy(Filter(data, ContributesTo(mapping, e.name)), FrequencyOrZero)
      && multiset(e.words) == multiset(Map(Filter(data, ContributesTo(mapping, e.name)), MentionOf))
      && DescendingBy(e.words, MentionFrequency)
      && SumBy(e.words, MentionFrequency) == e.frequency
  {
    var t := SortDesc(frequencies, TotalOf)[i];
    OutputEntry(frequencies, countryWords, i);
    assert t in multiset(frequencies);
    var j :| 0 <= j < |frequencies| && frequencies[j] == t;
    assert Map(frequencies, NameOf)[j] == t.name;
    var words := Map(Filter(data, ContributesTo(mapping, t.name)), MentionOf);
    assert WordsOf(countryWords, t.name) == words;
    SortDescSum(words, MentionFrequency, MentionFrequency);
    CountryWordsSum(data, mapping, t.name);
  }
}
