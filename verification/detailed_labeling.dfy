/** The detailed labeller: twenty-seven if/elif groups of keyword tests on
    the lower-cased Chinese word, each contributing the labels of its first
    matching branch, and contextual tags for a word no group recognises;
    plus the driver that keeps the frequent words and labels them. */
module DetailedLabeling {
  import opened Seqs
  import opened Text
  import opened Records
  import opened Sorting

  /** One `if`/`elif` arm: its keywords and the labels it adds. */
  datatype Branch = Branch(keywords: seq<string>, labels: seq<string>)

  // Meat and food products
  const MeatProducts: seq<Branch> := [
    Branch(["牛肉", "beef"], ["meat_product", "beef_category"]),
    Branch(["猪肉", "pork"], ["meat_product", "pork_category"]),
    Branch(["羊肉", "lamb", "mutton"], ["meat_product", "lamb_category"]),
    Branch(["鸡肉", "chicken"], ["meat_product", "poultry_category"]),
    Branch(["牛排", "steak"], ["meat_product", "beef_category", "premium_cut"]),
    Branch(["五花肉", "belly"], ["meat_product", "pork_category", "fatty_cut"])
  ]

  // Food quality and taste
  const FoodQuality: seq<Branch> := [
    Branch(["好吃", "tasty", "delicious"], ["food_quality", "taste_positive"]),
    Branch(["美食", "gourmet"], ["food_quality", "premium_food"]),
    Branch(["口感", "taste", "texture"], ["food_quality", "sensory_experience"]),
    Branch(["新鲜", "fresh"], ["food_quality", "freshness"]),
    Branch(["品质", "quality"], ["food_quality", "quality_standard"])
  ]

  // Countries and regions
  const Countries: seq<Branch> := [
    Branch(["澳洲", "australia"], ["country_origin", "oceanic_region", "popular_origin"]),
    Branch(["新西兰", "new zealand"], ["country_origin", "oceanic_region"]),
    Branch(["日本", "japan"], ["country_origin", "asian_region", "premium_origin"]),
    Branch(["美国", "usa", "america"], ["country_origin", "american_region"]),
    Branch(["中国", "china"], ["country_origin", "asian_region", "domestic"]),
    Branch(["新加坡", "singapore"], ["country_origin", "asian_region"]),
    Branch(["巴西", "brazil"], ["country_origin", "south_american_region"]),
    Branch(["阿根廷", "argentina"], ["country_origin", "south_american_region"])
  ]

  // Cities
  const Cities: seq<Branch> := [
    Branch(["奥克兰", "auckland"], ["city_location", "new_zealand_city"]),
    Branch(["悉尼", "sydney"], ["city_location", "australian_city"])
  ]

  // Retail and shopping
  const Retail: seq<Branch> := [
    Branch(["超市", "supermarket"], ["retail_location", "grocery_store"]),
    Branch(["肉店", "butcher"], ["retail_location", "specialty_store"]),
    Branch(["烤肉店", "barbecue restaurant"], ["retail_location", "restaurant"])
  ]

  // Brands
  const Brands: seq<Branch> := [
    Branch(["a5", "a5"], ["brand", "premium_grade", "japanese_brand"]),
    Branch(["安格斯", "angus"], ["brand", "cattle_breed", "premium_brand"]),
    Branch(["coles", "coles"], ["brand", "australian_retailer", "supermarket_chain"])
  ]

  // Import and trade
  const ImportTrade: seq<Branch> := [
    Branch(["进口", "import"], ["import_trade", "trade_process"]),
    Branch(["海关", "customs"], ["import_trade", "regulatory_process"]),
    Branch(["报关", "customs clearance"], ["import_trade", "documentation_process"]),
    Branch(["清关", "customs clearance"], ["import_trade", "clearance_process"]),
    Branch(["进口商", "importer"], ["import_trade", "business_entity"])
  ]

  // Price and value
  const PriceValue: seq<Branch> := [
    Branch(["价格", "price"], ["price_value", "cost_consideration"]),
    Branch(["便宜", "cheap"], ["price_value", "affordability"]),
    Branch(["小贵", "expensive"], ["price_value", "premium_pricing"])
  ]

  // Meat cuts and parts
  const MeatCuts: seq<Branch> := [
    Branch(["部位", "part"], ["meat_cuts", "cut_classification"]),
    Branch(["肋条", "rib"], ["meat_cuts", "rib_cut"]),
    Branch(["牛腩", "brisket"], ["meat_cuts", "brisket_cut"])
  ]

  // Cooking methods
  const CookingMethods: seq<Branch> := [
    Branch(["烧烤", "barbecue"], ["cooking_method", "grilling"]),
    Branch(["烤肉", "barbecue"], ["cooking_method", "grilling"]),
    Branch(["火锅", "hot pot"], ["cooking_method", "boiling"])
  ]

  // Storage and preservation
  const Storage: seq<Branch> := [
    Branch(["冷冻", "freezing"], ["storage_preservation", "freezing_method"]),
    Branch(["冷藏", "refrigeration"], ["storage_preservation", "refrigeration_method"])
  ]

  // Social and sharing
  const Social: seq<Branch> := [
    Branch(["分享", "share"], ["social_sharing", "content_sharing"]),
    Branch(["推荐", "recommend"], ["social_sharing", "recommendation"])
  ]

  // Lifestyle
  const Lifestyle: seq<Branch> := [
    Branch(["生活", "life"], ["lifestyle", "daily_life"]),
    Branch(["日常", "daily"], ["lifestyle", "routine"])
  ]

  // Shopping behaviour
  const ShoppingBehavior: seq<Branch> := [
    Branch(["团购", "group buying"], ["shopping_behavior", "bulk_purchasing"]),
    Branch(["购买", "buy"], ["shopping_behavior", "purchasing"])
  ]

  // Information seeking
  const InformationSeeking: seq<Branch> := [
    Branch(["知道", "know"], ["information_seeking", "knowledge"]),
    Branch(["请问", "excuse me"], ["information_seeking", "question_asking"]),
    Branch(["了解", "learn"], ["information_seeking", "learning"])
  ]

  // Emotional expression
  const Emotion: seq<Branch> := [
    Branch(["偷笑", "smirk"], ["emotional_expression", "amusement"]),
    Branch(["doge", "doge"], ["emotional_expression", "meme_expression"])
  ]

  // Market and business
  const Market: seq<Branch> := [
    Branch(["市场", "market"], ["market_business", "marketplace"]),
    Branch(["批发", "wholesale"], ["market_business", "wholesale_trade"])
  ]

  // Product features
  const ProductFeatures: seq<Branch> := [
    Branch(["特点", "features"], ["product_features", "characteristics"])
  ]

  // Meat quality characteristics
  const MeatQuality: seq<Branch> := [
    Branch(["肉质", "meat quality"], ["quality_characteristics", "meat_quality"]),
    Branch(["脂肪", "fat"], ["quality_characteristics", "fat_content"])
  ]

  // Cooking and preparation terms
  const Preparation: seq<Branch> := [
    Branch(["原切", "original cut"], ["cooking_preparation", "cutting_method"])
  ]

  // User behaviour patterns
  const UserBehavior: seq<Branch> := [
    Branch(["留子", "留学生"], ["user_demographic", "international_student"]),
    Branch(["我们", "we"], ["user_demographic", "community"]),
    Branch(["自己", "self"], ["user_demographic", "personal"])
  ]

  // Product availability
  const Availability: seq<Branch> := [
    Branch(["需要", "need"], ["product_availability", "demand_expression"]),
    Branch(["适合", "suitable"], ["product_availability", "suitability"])
  ]

  // Product categories
  const ProductCategories: seq<Branch> := [
    Branch(["产品", "product"], ["product_category", "general_product"]),
    Branch(["食材", "ingredient"], ["product_category", "cooking_ingredient"]),
    Branch(["食品", "food"], ["product_category", "food_item"]),
    Branch(["肉类", "meat"], ["product_category", "meat_category"])
  ]

  // Time and frequency
  const TimeFrequency: seq<Branch> := [
    Branch(["时候", "time"], ["time_frequency", "temporal_reference"]),
    Branch(["之前", "before"], ["time_frequency", "temporal_sequence"]),
    Branch(["今天", "today"], ["time_frequency", "current_time"])
  ]

  // Location and direction
  const Location: seq<Branch> := [
    Branch(["国内", "domestic"], ["location_direction", "domestic_market"]),
    Branch(["这里", "here"], ["location_direction", "current_location"]),
    Branch(["哪里", "where"], ["location_direction", "location_inquiry"])
  ]

  // Quantity and measurement
  const Quantity: seq<Branch> := [
    Branch(["一般", "general"], ["quantity_measurement", "general_quantity"]),
    Branch(["一点", "little"], ["quantity_measurement", "small_quantity"])
  ]

  // Communication and interaction
  const Communication: seq<Branch> := [
    Branch(["出来", "come out"], ["communication_interaction", "result_expression"]),
    Branch(["不是", "not"], ["communication_interaction", "negation"]),
    Branch(["或者", "or"], ["communication_interaction", "alternative"]),
    Branch(["如果", "if"], ["communication_interaction", "conditional"])
  ]

  const Groups: seq<seq<Branch>> := [
    MeatProducts, FoodQuality, Countries, Cities, Retail, Brands, ImportTrade, PriceValue, MeatCuts, CookingMethods, Storage, Social, Lifestyle, ShoppingBehavior, InformationSeeking, Emotion, Market, ProductFeatures, MeatQuality, Preparation, UserBehavior, Availability, ProductCategories, TimeFrequency, Location, Quantity, Communication
  ]

  // ---------------------------------------------------------------------
  // Matching

  /** One if/elif group: the labels of the first branch with a keyword in
      the word, or none. */
  function GroupLabels(w: string, group: seq<Branch>): seq<string> {
    if group == [] then []
    else if AnyContained(w, group[0].keywords) then group[0].labels
    else GroupLabels(w, group[1..])
  }

  /** Branch `i` is the first of the group whose keywords occur in `w`. */
  ghost predicate FirstMatch(w: string, group: seq<Branch>, i: int) {
    && 0 <= i < |group|
    && AnyContained(w, group[i].keywords)
    && forall j :: 0 <= j < i ==> !AnyContained(w, group[j].keywords)
  }

  /** A group contributes exactly the labels of its first matching branch,
      and nothing when no branch matches. */
  lemma {:induction false} GroupFirstMatch(w: string, group: seq<Branch>)
    ensures forall i :: FirstMatch(w, group, i) ==> GroupLabels(w, group) == group[i].labels
    ensures (forall i :: 0 <= i < |group| ==> !AnyContained(w, group[i].keywords)) ==> GroupLabels(w, group) == []
    ensures GroupLabels(w, group) == [] || exists i :: FirstMatch(w, group, i) && GroupLabels(w, group) == group[i].labels
  {
    if group != [] && !AnyContained(w, group[0].keywords) {
      var rest := group[1..];
      GroupFirstMatch(w, rest);
      forall i | FirstMatch(w, group, i)
        ensures GroupLabels(w, group) == group[i].labels
      {
        assert i != 0;
        assert FirstMatch(w, rest, i - 1);
      }
      if GroupLabels(w, rest) != [] {
        var i :| FirstMatch(w, rest, i) && GroupLabels(w, rest) == rest[i].labels;
        assert FirstMatch(w, group, i + 1);
      }
    } else if group != [] {
      assert FirstMatch(w, group, 0);
    }
  }

  /** The labels of all groups, in group order (the list before the
      fallback). */
  function MatchedLabels(w: string, groups: seq<seq<Branch>>): seq<string> {
    if groups == [] then [] else GroupLabels(w, groups[0]) + MatchedLabels(w, groups[1..])
  }

  /** A matched label comes from the first matching branch of some group. */
  lemma {:induction false} MatchedLabelSource(w: string, groups: seq<seq<Branch>>, l: string)
    ensures l in MatchedLabels(w, groups) ==>
      exists g, i :: 0 <= g < |groups| && FirstMatch(w, groups[g], i) && l in groups[g][i].labels
  {
    if groups != [] {
      var head := GroupLabels(w, groups[0]);
      GroupFirstMatch(w, groups[0]);
      if l in head {
        var i :| FirstMatch(w, groups[0], i) && head == groups[0][i].labels;
        assert 0 <= 0 < |groups| && FirstMatch(w, groups[0], i) && l in groups[0][i].labels;
      } else if l in MatchedLabels(w, groups[1..]) {
        MatchedLabelSource(w, groups[1..], l);
        var g, i :| 0 <= g < |groups[1..]| && FirstMatch(w, groups[1..][g], i) && l in groups[1..][g][i].labels;
        assert groups[1..][g] == groups[g + 1];
      }
    }
  }

  /** No branch matches the word. */
  ghost predicate NoGroupMatches(w: string) {
    forall g, i :: 0 <= g < |Groups| && 0 <= i < |Groups[g]| ==> !AnyContained(w, Groups[g][i].keywords)
  }

  // ---------------------------------------------------------------------
  // The contextual fallback

  predicate IsAsciiLetter(c: char) {
    'A' <= c <= 'Z' || 'a' <= c <= 'z'
  }

  predicate IsAsciiAlnum(c: char) {
    IsAsciiLetter(c) || '0' <= c <= '9'
  }

  /** `re.match(r'^[...]+$', s)` for a character class: one or more class
      characters up to the end, where `$` also matches just before a final
      newline. */
  predicate WholeMatch(s: string, cls: char -> bool) {
    var body := MatchBody(s);
    body != [] && forall k :: 0 <= k < |body| ==> cls(body[k])
  }

  /** The part of `s` that `^...+$` must cover. */
  function MatchBody(s: string): string {
    if s != [] && s[|s| - 1] == '\n' then s[..|s| - 1] else s
  }

  /** A word made of letters is also made of letters and digits. */
  lemma LettersAreAlnum(s: string)
    ensures WholeMatch(s, IsAsciiLetter) ==> WholeMatch(s, IsAsciiAlnum)
  {
    var body := MatchBody(s);
    if WholeMatch(s, IsAsciiLetter) {
      assert forall k :: 0 <= k < |body| ==> IsAsciiLetter(body[k]);
      assert forall k :: 0 <= k < |body| ==> IsAsciiAlnum(body[k]);
    }
  }

  const ContextTagNames: set<string> :=
    {"short_word", "long_word", "code_number", "foreign_word", "high_frequency_word"}

  /** The tags of a word no group recognises, in the order `get_detailed_labels`
      appends them, judged on the word as given (not lower-cased). */
  function ContextTags(word: string): (r: seq<string>)
    ensures forall l :: l in r ==> l in ContextTagNames
    ensures "high_frequency_word" in r
    ensures "short_word" in r <==> |word| <= 2
    ensures "long_word" in r <==> |word| >= 4
    ensures "code_number" in r <==> WholeMatch(word, IsAsciiAlnum)
    ensures "foreign_word" in r <==> WholeMatch(word, IsAsciiLetter)
    ensures "foreign_word" in r ==> "code_number" in r
    ensures Distinct(r)
  {
    LettersAreAlnum(word);
    var size := if |word| <= 2 then ["short_word"] else if |word| >= 4 then ["long_word"] else [];
    var code := if WholeMatch(word, IsAsciiAlnum) then ["code_number"] else [];
    var foreign := if WholeMatch(word, IsAsciiLetter) then ["foreign_word"] else [];
    size + code + foreign + ["high_frequency_word"]
  }

  /** The list `get_detailed_labels` builds before deduplicating: the group
      labels of the lower-cased Chinese word, or the contextual tags when
      there are none (the English translation is lower-cased by `get_detailed_labels`
      but never consulted). */
  function CollectedLabels(word: string, english: string, lower: CaseMap): (r: seq<string>)
    ensures r != []
  {
    var labels := MatchedLabels(Lower(word, lower), Groups);
    if labels == [] then ContextTags(word) else labels
  }

  /** `get_detailed_labels`, as a set: the script returns `list(set(labels))`,
      whose order Python does not fix. */
  function DetailedLabels(word: string, english: string, lower: CaseMap): (r: set<string>)
    ensures r != {}
    ensures forall l :: l in r <==> l in CollectedLabels(word, english, lower)
  {
    var labels := CollectedLabels(word, english, lower);
    var r := set l | l in labels;
    assert labels[0] in r;
    r
  }

  /** Every branch of a group adds at least one label, none of them a
      contextual tag, and only branch `importer` (if any) adds
      `business_entity`. */
  ghost predicate GroupOk(group: seq<Branch>, importer: int) {
    forall i :: 0 <= i < |group| ==>
      && group[i].labels != []
      && (forall l :: l in group[i].labels ==> l !in ContextTagNames)
      && ("business_entity" in group[i].labels ==> i == importer)
  }

  lemma MeatProductsOk() ensures GroupOk(MeatProducts, -1) {}
  lemma FoodQualityOk() ensures GroupOk(FoodQuality, -1) {}
  lemma CountriesOk() ensures GroupOk(Countries, -1) {}
  lemma CitiesOk() ensures GroupOk(Cities, -1) {}
  lemma RetailOk() ensures GroupOk(Retail, -1) {}
  lemma BrandsOk() ensures GroupOk(Brands, -1) {}
  lemma ImportTradeOk() ensures GroupOk(ImportTrade, 4) {}
  lemma PriceValueOk() ensures GroupOk(PriceValue, -1) {}
  lemma MeatCutsOk() ensures GroupOk(MeatCuts, -1) {}
  lemma CookingMethodsOk() ensures GroupOk(CookingMethods, -1) {}
  lemma StorageOk() ensures GroupOk(Storage, -1) {}
  lemma SocialOk() ensures GroupOk(Social, -1) {}
  lemma LifestyleOk() ensures GroupOk(Lifestyle, -1) {}
  lemma ShoppingBehaviorOk() ensures GroupOk(ShoppingBehavior, -1) {}
  lemma InformationSeekingOk() ensures GroupOk(InformationSeeking, -1) {}
  lemma EmotionOk() ensures GroupOk(Emotion, -1) {}
  lemma MarketOk() ensures GroupOk(Market, -1) {}
  lemma ProductFeaturesOk() ensures GroupOk(ProductFeatures, -1) {}
  lemma MeatQualityOk() ensures GroupOk(MeatQuality, -1) {}
  lemma PreparationOk() ensures GroupOk(Preparation, -1) {}
  lemma UserBehaviorOk() ensures GroupOk(UserBehavior, -1) {}
  lemma AvailabilityOk() ensures GroupOk(Availability, -1) {}
  lemma ProductCategoriesOk() ensures GroupOk(ProductCategories, -1) {}
  lemma TimeFrequencyOk() ensures GroupOk(TimeFrequency, -1) {}
  lemma LocationOk() ensures GroupOk(Location, -1) {}
  lemma QuantityOk() ensures GroupOk(Quantity, -1) {}
  lemma CommunicationOk() ensures GroupOk(Communication, -1) {}

  /** The facts above, for every group of the labeller; the import group
      is the seventh, and `importer` its fifth branch. */
  lemma BranchLabels()
    ensures forall g :: 0 <= g < |Groups| ==> GroupOk(Groups[g], if g == 6 then 4 else -1)
  {
    MeatProductsOk();
    FoodQualityOk();
    CountriesOk();
    CitiesOk();
    RetailOk();
    BrandsOk();
    ImportTradeOk();
    PriceValueOk();
    MeatCutsOk();
    CookingMethodsOk();
    StorageOk();
    SocialOk();
    LifestyleOk();
    ShoppingBehaviorOk();
    InformationSeekingOk();
    EmotionOk();
    MarketOk();
    ProductFeaturesOk();
    MeatQualityOk();
    PreparationOk();
    UserBehaviorOk();
    AvailabilityOk();
    ProductCategoriesOk();
    TimeFrequencyOk();
    LocationOk();
    QuantityOk();
    CommunicationOk();
  }

  /** A group adds nothing exactly when none of its branches matches,
      given that every branch adds a label. */
  lemma {:induction false} GroupSilent(w: string, group: seq<Branch>)
    requires forall i :: 0 <= i < |group| ==> group[i].labels != []
    ensures GroupLabels(w, group) == [] <==> forall i :: 0 <= i < |group| ==> !AnyContained(w, group[i].keywords)
  {
    if group != [] {
      GroupSilent(w, group[1..]);
      assert forall i :: 1 <= i < |group| ==> group[i] == group[1..][i - 1];
    }
  }

  /** The list before the fallback is empty exactly when no branch of any
      group matches, given that every branch adds a label. */
  lemma {:induction false} MatchedNothing(w: string, groups: seq<seq<Branch>>)
    requires forall g, i :: 0 <= g < |groups| && 0 <= i < |groups[g]| ==> groups[g][i].labels != []
    ensures MatchedLabels(w, groups) == [] <==>
      forall g, i :: 0 <= g < |groups| && 0 <= i < |groups[g]| ==> !AnyContained(w, groups[g][i].keywords)
  {
    if groups != [] {
      assert forall g :: 1 <= g < |groups| ==> groups[g] == groups[1..][g - 1];
      MatchedNothing(w, groups[1..]);
      GroupSilent(w, groups[0]);
    }
  }

  /** The contextual tags appear exactly when no group matched, and then
      they are all there is; otherwise none of them appears, so
      `high_frequency_word` marks the fallback. */
  lemma DetailedFallback(word: string, english: string, lower: CaseMap)
    ensures var w, r := Lower(word, lower), CollectedLabels(word, english, lower);
      && (NoGroupMatches(w) ==> r == ContextTags(word))
      && (!NoGroupMatches(w) ==> forall l :: l in r ==> l !in ContextTagNames)
      && ("high_frequency_word" in r <==> NoGroupMatches(w))
  {
    var w := Lower(word, lower);
    BranchLabels();
    assert forall g, i :: 0 <= g < |Groups| && 0 <= i < |Groups[g]| ==> Groups[g][i].labels != [] by {
      forall g, i | 0 <= g < |Groups| && 0 <= i < |Groups[g]|
        ensures Groups[g][i].labels != []
      {
        assert GroupOk(Groups[g], if g == 6 then 4 else -1);
      }
    }
    MatchedNothing(w, Groups);
    forall l | l in MatchedLabels(w, Groups)
      ensures l !in ContextTagNames
    {
      MatchedLabelSource(w, Groups, l);
      var g, i :| 0 <= g < |Groups| && FirstMatch(w, Groups[g], i) && l in Groups[g][i].labels;
      assert GroupOk(Groups[g], if g == 6 then 4 else -1);
    }
  }

  /** `importer` contains `import` (and 进口商 contains 进口), so the first
      branch of the import group always wins over its fifth. */
  lemma ImporterNeverFirst(w: string)
    ensures !FirstMatch(w, ImportTrade, 4)
  {
    var later, first := ImportTrade[4].keywords, ImportTrade[0].keywords;
    AnyContainedIff(w, later);
    AnyContainedIff(w, first);
    if Contains(w, "进口商") {
      ContainsPrefix(w, "进口商", "进口");
      assert "进口" in first;
    }
    if Contains(w, "importer") {
      ContainsPrefix(w, "importer", "import");
      assert "import" in first;
    }
  }

  /** The label `business_entity`, listed by the `importer` branch, is never
      produced. */
  lemma BusinessEntityUnreachable(word: string, english: string, lower: CaseMap)
    ensures "business_entity" !in DetailedLabels(word, english, lower)
  {
    var w := Lower(word, lower);
    BranchLabels();
    ImporterNeverFirst(w);
    MatchedLabelSource(w, Groups, "business_entity");
    assert Groups[6] == ImportTrade;
    assert forall g, i :: 0 <= g < |Groups| && FirstMatch(w, Groups[g], i) ==> "business_entity" !in Groups[g][i].labels by {
      forall g, i | 0 <= g < |Groups| && FirstMatch(w, Groups[g], i)
        ensures "business_entity" !in Groups[g][i].labels
      {
        assert GroupOk(Groups[g], if g == 6 then 4 else -1);
      }
    }
  }

  // ---------------------------------------------------------------------
  // The driver

  /** The labels as the output record lists them: each label of
      `get_detailed_labels` once. Python leaves the order of `list(set(...))`
      unspecified; the model fixes it as ascending. */
  function DetailedLabelList(zh: string, en: string, lower: CaseMap): (r: seq<string>)
    ensures forall l :: l in r <==> l in DetailedLabels(zh, en, lower)
    ensures Distinct(r)
  {
    var r := SortUnique(CollectedLabels(zh, en, lower));
    AscendingDistinct(r);
    r
  }

  /** `process_words_with_detailed_labels` without its file I/O: the
      frequent items in order, each with its deduplicated detailed labels;
      or the key the script fails on. */
  function ProcessDetailed(data: seq<RawItem>, minFrequency: int, lower: CaseMap): (r: Result<seq<Word>>)
    ensures r.Success? <==> Labellable(data, minFrequency)
    ensures r.MissingKey? && r.key == "frequency" <==> exists i :: 0 <= i < |data| && data[i].frequency.None?
    ensures r.MissingKey? ==> r.key in {"frequency", "zh", "en"}
    ensures r.Success? ==>
      var kept := Filter(data, KeepsFrequency(minFrequency));
      && |r.value| == |kept|
      && forall i :: 0 <= i < |kept| ==>
        && kept[i].zh.Some? && kept[i].en.Some? && kept[i].frequency.Some?
        && r.value[i].zh == kept[i].zh.value && r.value[i].en == kept[i].en.value
        && r.value[i].frequency == kept[i].frequency.value >= minFrequency
        && Distinct(r.value[i].labels)
        && forall l :: l in r.value[i].labels <==> l in DetailedLabels(kept[i].zh.value, kept[i].en.value, lower)
  {
    FilterMembers(data, KeepsFrequency(minFrequency));
    LabelFrequent(data, minFrequency, (zh, en) => DetailedLabelList(zh, en, lower))
  }
}
