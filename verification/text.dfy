/** Text primitives of the labelling scripts: lower-casing, Python's `in`
    on strings (substring test), `any(kw in s for kw in keywords)`, and the
    code-point order that `sorted` uses on strings. */
module Text {

  /** Python's `str.lower` is taken as a per-character mapping that the
      caller supplies; nothing in the model depends on which mapping it is. */
  type CaseMap = char -> char

  function Lower(s: string, lower: CaseMap): (r: string)
    ensures |r| == |s|
  {
    seq(|s|, i requires 0 <= i < |s| => lower(s[i]))
  }

  predicate StartsWith(s: string, prefix: string) {
    |prefix| <= |s| && s[..|prefix|] == prefix
  }

  /** Python's `kw in s` for strings: `kw` occurs in `s` as a contiguous
      run (the empty string occurs everywhere). */
  predicate Contains(s: string, kw: string)
    decreases |s|
  {
    StartsWith(s, kw) || (s != [] && Contains(s[1..], kw))
  }

  /** `kw` occurs in `s` starting at position `i`. */
  ghost predicate OccursAt(s: string, kw: string, i: int) {
    0 <= i && i + |kw| <= |s| && s[i..i + |kw|] == kw
  }

  /** `Contains` is exactly the substring relation. */
  lemma {:induction false} ContainsIff(s: string, kw: string)
    ensures Contains(s, kw) <==> exists i :: OccursAt(s, kw, i)
    decreases |s|
  {
    if Contains(s, kw) {
      if StartsWith(s, kw) {
        assert OccursAt(s, kw, 0);
      } else {
        ContainsIff(s[1..], kw);
        var i :| OccursAt(s[1..], kw, i);
        assert s[1..][i..i + |kw|] == s[i + 1..i + 1 + |kw|];
        assert OccursAt(s, kw, i + 1);
      }
    }
    if exists i :: OccursAt(s, kw, i) {
      var i :| OccursAt(s, kw, i);
      if i > 0 {
        assert s[1..][i - 1..i - 1 + |kw|] == s[i..i + |kw|];
        assert OccursAt(s[1..], kw, i - 1);
        ContainsIff(s[1..], kw);
      } else {
        assert StartsWith(s, kw);
      }
    }
  }

  /** Whoever contains a string contains each of its prefixes. */
  lemma ContainsPrefix(s: string, longer: string, kw: string)
    requires Contains(s, longer) && StartsWith(longer, kw)
    ensures Contains(s, kw)
  {
    ContainsIff(s, longer);
    var i :| OccursAt(s, longer, i);
    assert s[i..i + |kw|] == longer[..|kw|];
    assert OccursAt(s, kw, i);
    ContainsIff(s, kw);
  }

  /** `any(kw in s for kw in keywords)`, evaluated left to right. */
  predicate AnyContained(s: string, keywords: seq<string>) {
    keywords != [] && (Contains(s, keywords[0]) || AnyContained(s, keywords[1..]))
  }

  lemma {:induction false} AnyContainedIff(s: string, keywords: seq<string>)
    ensures AnyContained(s, keywords) <==> exists kw :: kw in keywords && Contains(s, kw)
  {
    if keywords != [] {
      AnyContainedIff(s, keywords[1..]);
      assert keywords == [keywords[0]] + keywords[1..];
      if Contains(s, keywords[0]) {
        assert keywords[0] in keywords;
      }
    }
  }

  /** Python's `<` on `str`: the first differing code point decides, and a
      proper prefix is smaller. */
  predicate LexLess(a: string, b: string) {
    if a == [] then b != []
    else if b == [] then false
    else if a[0] != b[0] then a[0] < b[0]
    else LexLess(a[1..], b[1..])
  }

  lemma {:induction false} LexLessIrreflexive(a: string)
    ensures !LexLess(a, a)
  {
    if a != [] {
      LexLessIrreflexive(a[1..]);
    }
  }

  lemma {:induction false} LexLessAsymmetric(a: string, b: string)
    requires LexLess(a, b)
    ensures !LexLess(b, a)
  {
    if a != [] && b != [] && a[0] == b[0] {
      LexLessAsymmetric(a[1..], b[1..]);
    }
  }

  lemma {:induction false} LexLessTransitive(a: string, b: string, c: string)
    requires LexLess(a, b) && LexLess(b, c)
    ensures LexLess(a, c)
  {
    if a != [] && a[0] == b[0] && b[0] == c[0] {
      LexLessTransitive(a[1..], b[1..], c[1..]);
    }
  }

  lemma {:induction false} LexLessTotal(a: string, b: string)
    requires a != b
    ensures LexLess(a, b) || LexLess(b, a)
  {
    if a != [] && b != [] && a[0] == b[0] {
      assert a == [a[0]] + a[1..] && b == [b[0]] + b[1..];
      LexLessTotal(a[1..], b[1..]);
    }
  }
}
