/** The compact labeller: twelve business categories recognised by keyword,
    a `not_important` marker for chatter, and `other` for the rest; plus the
    relabelling pass over a word list and its label distribution. */
module CompactLabeling {
  import opened Seqs
  import opened Text
  import opened Sorting
  import opened Tally
  import opened Records
  import opened LabelCounts

  /** A category and the keywords that select it. */
  datatype Category = Category(name: string, keywords: seq<string>)

  function NameOf(c: Category): string {
    c.name
  }

  /** The categories in the order the labeller tries them. */
  const Categories: seq<Category> := [
    Category("product_meat", ["牛肉", "猪肉", "羊肉", "鸡肉", "牛排", "牛蛙", "菲力", "肋排", "里脊", "rump",
      "tenderloin", "sirloin", "ribeye", "brisket", "flank", "skirt", "shank"]),
    Category("cut_part", ["部位", "肋条", "牛腩", "板腱", "西冷", "眼肉", "肩胛", "牛小排", "里脊肉", "腱子",
      "吊龙", "臀盖", "臀尖", "rib", "ribs", "brisket", "flank", "skirt", "shank"]),
    Category("quality", ["新鲜", "口感", "品质", "肉质", "脂肪", "嫩度", "纹理", "油花", "鲜嫩", "颜色",
      "香味", "风味", "taste", "fresh", "quality", "texture", "fat"]),
    Category("origin_country", ["澳洲", "澳大利亚", "新西兰", "日本", "美国", "中国", "阿根廷", "巴西",
      "西班牙", "马来西亚", "瑞士", "俄罗斯", "australia", "new zealand", "japan", "usa", "china",
      "argentina", "brazil", "spain", "switzerland", "russia", "malaysia"]),
    Category("city_region", ["奥克兰", "悉尼", "珀斯", "基督城", "上海", "北京", "auckland", "sydney",
      "perth", "christchurch", "shanghai", "beijing"]),
    Category("retail_channel", ["超市", "肉店", "butcher", "supermarket", "烤肉店", "餐厅", "colse", "coles",
      "wws", "woolworth", "lidl", "costco", "aldi", "paknsave", "ole", "countdown"]),
    Category("trade_import", ["进口", "清关", "报关", "海关", "备案", "检疫", "关税", "报检", "通关", "import",
      "customs", "clearance", "declaration", "quarantine", "tariff"]),
    Category("price_value", ["价格", "便宜", "贵", "划算", "性价比", "优惠", "打折", "cost", "price", "cheap",
      "expensive", "value"]),
    Category("cooking_usage", ["烤肉", "烧烤", "火锅", "红烧", "炖煮", "解冻", "煎制", "烤制", "烹饪", "菜谱",
      "barbecue", "grill", "hotpot", "roast", "stew", "boil", "fry"]),
    Category("social_intent", ["推荐", "分享", "探店", "回购", "分享", "推荐", "review", "share", "recommend"]),
    Category("demand_intent", ["需要", "适合", "购买", "团购", "买到", "下单", "采购", "demand", "buy",
      "purchase", "order"]),
    Category("brand", ["安格斯", "angus", "a5", "wagyu", "blackmore", "mayura", "teys", "mb", "msa"])
  ]

  /** Cues of words unrelated to the business. */
  const NotImportantCues: set<string> := {
    "偷笑", "doge", "害羞", "飞吻", "捂脸", "哈哈", "哈哈哈", "哈哈哈哈", "yyds", "视频", "图片", "地址", "plog",
    "我们", "自己", "他们", "或者", "如果", "时候", "这里", "那里", "哪里", "不是", "出来", "一点", "一般", "而且"
  }

  /** Contextual tags left out of the label distribution. */
  const ContextNoise: set<string> :=
    {"high_frequency_word", "short_word", "long_word", "code_number", "foreign_word"}

  /** The inner keyword loop: some keyword, tried in order, occurs in the
      lower-cased Chinese or English text. */
  predicate MatchesAny(z: string, e: string, keywords: seq<string>) {
    keywords != [] &&
    (Contains(z, keywords[0]) || Contains(e, keywords[0]) || MatchesAny(z, e, keywords[1..]))
  }

  lemma {:induction false} MatchesAnyIff(z: string, e: string, keywords: seq<string>)
    ensures MatchesAny(z, e, keywords) <==> exists kw :: kw in keywords && (Contains(z, kw) || Contains(e, kw))
  {
    if keywords != [] {
      MatchesAnyIff(z, e, keywords[1..]);
      assert keywords == [keywords[0]] + keywords[1..];
      assert keywords[0] in keywords;
    }
  }

  function CategoryMatches(z: string, e: string): Category -> bool {
    (c: Category) => MatchesAny(z, e, c.keywords)
  }

  predicate CueMatches(z: string, e: string) {
    exists cue | cue in NotImportantCues :: Contains(z, cue) || Contains(e, cue)
  }

  /** No category has a keyword in the text. */
  ghost predicate NoCategory(z: string, e: string) {
    forall c :: c in Categories ==> !MatchesAny(z, e, c.keywords)
  }

  /** The category labels of the first loop, in category order. */
  function CategoryLabels(z: string, e: string): seq<string> {
    Map(Filter(Categories, CategoryMatches(z, e)), NameOf)
  }

  /** The labels before the final sort: the matched categories, else
      `not_important` when a cue occurs, else `other`. */
  function CollectedLabels(z: string, e: string): seq<string> {
    var labels := CategoryLabels(z, e);
    if labels != [] then labels
    else if CueMatches(z, e) then ["not_important"]
    else ["other"]
  }

  /** `get_compact_labels`. */
  function CompactLabels(zh: string, en: string, lower: CaseMap): (r: seq<string>)
    ensures StrictlyAscending(r)
    ensures forall l :: l in r <==> l in CollectedLabels(Lower(zh, lower), Lower(en, lower))
  {
    SortUnique(CollectedLabels(Lower(zh, lower), Lower(en, lower)))
  }

  /** No two categories share a name, and neither fallback is a category. */
  lemma CategoryNamesDistinct()
    ensures Distinct(Map(Categories, NameOf))
    ensures "not_important" !in Map(Categories, NameOf) && "other" !in Map(Categories, NameOf)
  {
  }

  /** A category label is present exactly when one of the category's
      keywords occurs in the lower-cased Chinese or English text. */
  lemma CompactCategoryIff(zh: string, en: string, lower: CaseMap, i: int)
    requires 0 <= i < |Categories|
    ensures var z, e := Lower(zh, lower), Lower(en, lower);
      Categories[i].name in CompactLabels(zh, en, lower) <==>
        exists kw :: kw in Categories[i].keywords && (Contains(z, kw) || Contains(e, kw))
  {
    var z, e := Lower(zh, lower), Lower(en, lower);
    var c := Categories[i];
    MatchesAnyIff(z, e, c.keywords);
    CategoryNamesDistinct();
    var kept := Filter(Categories, CategoryMatches(z, e));
    FilterMembers(Categories, CategoryMatches(z, e));
    if MatchesAny(z, e, c.keywords) {
      assert c in kept;
      var j :| 0 <= j < |kept| && kept[j] == c;
      assert CategoryLabels(z, e)[j] == c.name;
    }
    if c.name in CategoryLabels(z, e) {
      var j :| 0 <= j < |kept| && CategoryLabels(z, e)[j] == c.name;
      assert kept[j] in Categories;
      var k :| 0 <= k < |Categories| && Categories[k] == kept[j];
      assert Map(Categories, NameOf)[k] == Map(Categories, NameOf)[i];
    }
  }

  /** The fallbacks: `not_important` exactly when no category matched and a
      cue occurs, `other` exactly when neither matched; either one is then
      the only label, so the result is never empty. */
  lemma CompactFallbacks(zh: string, en: string, lower: CaseMap)
    ensures var z, e := Lower(zh, lower), Lower(en, lower);
      var r := CompactLabels(zh, en, lower);
      && r != []
      && ("not_important" in r <==> NoCategory(z, e) && CueMatches(z, e))
      && ("other" in r <==> NoCategory(z, e) && !CueMatches(z, e))
      && ("not_important" in r || "other" in r ==> |r| == 1)
  {
    var z, e := Lower(zh, lower), Lower(en, lower);
    var collected := CollectedLabels(z, e);
    var r := CompactLabels(zh, en, lower);
    CategoryNamesDistinct();
    assert collected[0] in collected;
    var kept := Filter(Categories, CategoryMatches(z, e));
    FilterMembers(Categories, CategoryMatches(z, e));
    if kept != [] {
      assert kept[0] in kept;
    }
    if CategoryLabels(z, e) != [] {
      forall j | 0 <= j < |kept|
        ensures kept[j].name in Map(Categories, NameOf)
      {
        assert kept[j] in Categories;
        var k :| 0 <= k < |Categories| && Categories[k] == kept[j];
        assert Map(Categories, NameOf)[k] == kept[j].name;
      }
    } else {
      AscendingDistinct(r);
      SingleLabel(r, collected[0]);
    }
  }

  /** An ascending list with exactly the members of a one-element list is
      that list. */
  lemma SingleLabel(r: seq<string>, l: string)
    requires StrictlyAscending(r)
    requires forall x :: x in r <==> x == l
    ensures r == [l]
  {
    AscendingUnique(r, [l]);
  }

  // ---------------------------------------------------------------------
  // relabel_compact

  /** `item.get('frequency', 0) >= min_frequency`. */
  function KeepsRaw(minFrequency: int): RawItem -> bool {
    (item: RawItem) => GetOr(item.frequency, 0) >= minFrequency
  }

  function KeepsWord(minFrequency: int): Word -> bool {
    (w: Word) => w.frequency >= minFrequency
  }

  /** One output record: the fields the input carries (with the defaults of
      `dict.get`) and freshly computed labels. */
  function RelabelItem(item: RawItem, lower: CaseMap): Word {
    var zh, en := GetOr(item.zh, ""), GetOr(item.en, "");
    Word(zh, en, GetOr(item.frequency, 0), CompactLabels(zh, en, lower))
  }

  function Relabel(lower: CaseMap): RawItem -> Word {
    (item: RawItem) => RelabelItem(item, lower)
  }

  /** The relabelling pass: the items at or above the minimum frequency, in
      input order, each with compact labels. */
  function RelabelCompact(data: seq<RawItem>, minFrequency: int, lower: CaseMap): (r: seq<Word>)
    ensures |r| <= |data|
    ensures forall i :: 0 <= i < |r| ==> r[i].frequency >= minFrequency
    ensures forall i :: 0 <= i < |r| ==> r[i].labels == CompactLabels(r[i].zh, r[i].en, lower)
  {
    var kept := Filter(data, KeepsRaw(minFrequency));
    FilterMembers(data, KeepsRaw(minFrequency));
    assert forall i :: 0 <= i < |kept| ==> GetOr(kept[i].frequency, 0) >= minFrequency by {
      forall i | 0 <= i < |kept| ensures GetOr(kept[i].frequency, 0) >= minFrequency {
        assert kept[i] in kept;
      }
    }
    Map(kept, Relabel(lower))
  }

  /** Filtering before relabelling is filtering after it: exactly the items
      below the minimum are dropped, the rest keep their fields and order. */
  lemma RelabelThenFilter(data: seq<RawItem>, minFrequency: int, lower: CaseMap)
    ensures RelabelCompact(data, minFrequency, lower)
         == Filter(Map(data, Relabel(lower)), KeepsWord(minFrequency))
  {
    MapFilterCommute(data, KeepsRaw(minFrequency), Relabel(lower), KeepsWord(minFrequency));
  }

  // ---------------------------------------------------------------------
  // The label distribution

  function NotNoise(l: string): bool {
    l !in ContextNoise
  }

  /** The summary counts: how many output records carry each label, leaving
      the contextual tags out. */
  method LabelDistribution(out: seq<Word>) returns (counts: map<string, int>)
    ensures forall l :: l in counts ==> l !in ContextNoise
    ensures forall l :: l in counts <==> NotNoise(l) && exists w :: w in out && l in w.labels
    ensures forall l :: l in counts ==> counts[l] == LabelCount(out, l)
  {
    var mentions := Mentions(out);
    var acc := Accumulate(Filter(mentions, TagIn(NotNoise)));
    counts := map l | l in acc.entries :: acc.entries[l].count;
    forall l
      ensures l in counts <==> NotNoise(l) && exists w :: w in out && l in w.labels
      ensures l in counts ==> counts[l] == LabelCount(out, l)
    {
      MembersOfKept(mentions, NotNoise, l);
      CountPositive(Filter(mentions, TagIn(NotNoise)), l);
      MentionsTotals(out, l);
      LabelCountPositive(out, l);
    }
  }
}
