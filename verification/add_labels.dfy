/** The first, coarse labeller: nineteen independent keyword checks on the
    lower-cased Chinese word, each adding its own label, and `general` for a
    word none of them recognises; plus the driver that keeps the frequent
    words and labels them. */
module AddLabels {
  import opened Seqs
  import opened Text
  import opened Records

  /** One `if any(...)` test: its keywords and the label it appends. */
  datatype Check = Check(keywords: seq<string>, tag: string)

  function LabelOf(c: Check): string {
    c.tag
  }

  /** The checks of `categorize_word`, in the order it runs them. */
  const Checks: seq<Check> := [
    Check(["牛肉", "猪肉", "羊肉", "鸡肉", "牛排", "pork", "beef", "lamb", "chicken", "steak"], "meat_product"),
    Check(["美食", "好吃", "tasty", "gourmet", "food"], "food_quality"),
    Check(["澳洲", "澳大利亚", "新西兰", "日本", "美国", "中国", "新加坡", "巴西", "阿根廷", "australia", "new zealand", "japan", "usa", "china", "singapore", "brazil", "argentina"], "country_origin"),
    Check(["奥克兰", "悉尼", "auckland", "sydney"], "city_location"),
    Check(["超市", "肉店", "supermarket", "butcher"], "retail_location"),
    Check(["coles", "a5", "安格斯", "angus"], "brand"),
    Check(["进口", "海关", "报关", "清关", "import", "customs", "clearance"], "import_trade"),
    Check(["价格", "便宜", "贵", "price", "cheap", "expensive"], "price_value"),
    Check(["品质", "新鲜", "口感", "肉质", "quality", "fresh", "taste", "texture"], "quality_characteristics"),
    Check(["烧烤", "烤肉", "火锅", "barbecue", "grill", "hotpot"], "cooking_method"),
    Check(["冷冻", "冷藏", "freezing", "refrigeration"], "storage_preservation"),
    Check(["分享", "推荐", "推荐", "share", "recommend"], "social_sharing"),
    Check(["生活", "日常", "life", "daily"], "lifestyle"),
    Check(["团购", "购买", "buy", "group buy"], "shopping_behavior"),
    Check(["知道", "请问", "了解", "know", "ask", "understand"], "information_seeking"),
    Check(["偷笑", "doge", "smile", "laugh"], "emotional_expression"),
    Check(["部位", "肋条", "牛腩", "part", "rib", "brisket"], "meat_cuts"),
    Check(["市场", "批发", "market", "wholesale"], "market_business"),
    Check(["特点", "特色", "feature", "characteristic"], "product_features")
  ]

  /** The labels of the checks that fire on `w`, in check order. */
  function FiredLabels(w: string, checks: seq<Check>): (r: seq<string>)
    ensures forall l :: l in r <==> exists i :: 0 <= i < |checks| && checks[i].tag == l && AnyContained(w, checks[i].keywords)
    ensures IsSubseq(r, Map(checks, LabelOf))
  {
    if checks == [] then []
    else
      var rest := FiredLabels(w, checks[1..]);
      assert forall i :: 1 <= i < |checks| ==> checks[i] == checks[1..][i - 1];
      assert Map(checks, LabelOf) == [checks[0].tag] + Map(checks[1..], LabelOf);
      if AnyContained(w, checks[0].keywords) then [checks[0].tag] + rest else rest
  }

  /** With distinct check labels, no label is appended twice. */
  lemma {:induction false} FiredLabelsDistinct(w: string, checks: seq<Check>)
    requires Distinct(Map(checks, LabelOf))
    ensures Distinct(FiredLabels(w, checks))
  {
    if checks != [] {
      var labels := Map(checks, LabelOf);
      assert Map(checks[1..], LabelOf) == labels[1..];
      FiredLabelsDistinct(w, checks[1..]);
      if AnyContained(w, checks[0].keywords) {
        var rest := FiredLabels(w, checks[1..]);
        forall j | 0 <= j < |rest|
          ensures rest[j] != checks[0].tag
        {
          assert rest[j] in rest;
          var i :| 0 <= i < |checks[1..]| && checks[1..][i].tag == rest[j] && AnyContained(w, checks[1..][i].keywords);
          assert labels[i + 1] == rest[j] && labels[0] == checks[0].tag;
        }
      }
    }
  }

  /** The check labels are pairwise different, and none is `general`. */
  lemma CheckLabelsDistinct()
    ensures Distinct(Map(Checks, LabelOf))
    ensures "general" !in Map(Checks, LabelOf)
  {
  }

  /** The labels of the checks `w` fires, or `general` when it fires
      none. */
  function Categorize(w: string, checks: seq<Check>): (r: seq<string>)
    ensures r != []
  {
    var labels := FiredLabels(w, checks);
    if labels == [] then ["general"] else labels
  }

  /** For checks with distinct labels other than `general`: a check's label
      is present exactly when it fires, `general` exactly when none fires,
      and nothing is listed twice. */
  lemma CategorizeLabels(w: string, checks: seq<Check>)
    requires Distinct(Map(checks, LabelOf)) && "general" !in Map(checks, LabelOf)
    ensures var r := Categorize(w, checks);
      && (forall i :: 0 <= i < |checks| ==> (checks[i].tag in r <==> AnyContained(w, checks[i].keywords)))
      && ("general" in r <==> forall i :: 0 <= i < |checks| ==> !AnyContained(w, checks[i].keywords))
      && (forall l :: l in r ==> l == "general" || l in Map(checks, LabelOf))
      && Distinct(r)
      && (r == ["general"] || IsSubseq(r, Map(checks, LabelOf)))
  {
    var labels, fired := Map(checks, LabelOf), FiredLabels(w, checks);
    FiredLabelsDistinct(w, checks);
    forall i | 0 <= i < |checks|
      ensures checks[i].tag in fired <==> AnyContained(w, checks[i].keywords)
    {
      if checks[i].tag in fired {
        var j :| 0 <= j < |checks| && checks[j].tag == checks[i].tag && AnyContained(w, checks[j].keywords);
        assert labels[j] == labels[i];
      }
    }
    forall l | l in fired
      ensures l in labels
    {
      var j :| 0 <= j < |checks| && checks[j].tag == l && AnyContained(w, checks[j].keywords);
      assert labels[j] == l;
    }
    if fired != [] {
      assert fired[0] in fired;
    }
  }

  /** `categorize_word`: the check labels of the lower-cased Chinese word
      (the English translation is lower-cased by `categorize_word` but never
      consulted). */
  function CategorizeWord(word: string, english: string, lower: CaseMap): (r: seq<string>)
    ensures r != []
    ensures var w := Lower(word, lower);
      && (forall i :: 0 <= i < |Checks| ==> (Checks[i].tag in r <==> AnyContained(w, Checks[i].keywords)))
      && ("general" in r <==> forall i :: 0 <= i < |Checks| ==> !AnyContained(w, Checks[i].keywords))
      && (forall l :: l in r ==> l == "general" || l in Map(Checks, LabelOf))
      && Distinct(r)
      && (r == ["general"] || IsSubseq(r, Map(Checks, LabelOf)))
  {
    CheckLabelsDistinct();
    CategorizeLabels(Lower(word, lower), Checks);
    Categorize(Lower(word, lower), Checks)
  }

  /** `add_labels_to_words` without its file I/O and printed summary: the
      frequent items in order, each with its category labels; or the key
      the script fails on. */
  function AddLabelsToWords(data: seq<RawItem>, minFrequency: int, lower: CaseMap): (r: Result<seq<Word>>)
    ensures r.Success? <==> Labellable(data, minFrequency)
    ensures r.MissingKey? && r.key == "frequency" <==> exists i :: 0 <= i < |data| && data[i].frequency.None?
    ensures r.MissingKey? ==> r.key in {"frequency", "zh", "en"}
    ensures r.Success? ==>
      var kept := Filter(data, KeepsFrequency(minFrequency));
      && |r.value| == |kept|
      && forall i :: 0 <= i < |kept| ==>
        && kept[i].zh.Some? && kept[i].en.Some? && kept[i].frequency.Some?
        && r.value[i].zh == kept[i].zh.value && r.value[i].en == kept[i].en.value
        && r.value[i].frequency == kept[i].frequency.value >= minFrequency
        && r.value[i].labels == CategorizeWord(kept[i].zh.value, kept[i].en.value, lower)
  {
    FilterMembers(data, KeepsFrequency(minFrequency));
    LabelFrequent(data, minFrequency, (zh, en) => CategorizeWord(zh, en, lower))
  }
}
