/** Group-by accumulation as the dashboard and the country script perform
    it: read contributions in order, and under each contribution's key add
    its weight to a running total, bump a counter and append its item,
    creating the entry the first time the key is seen.  The keys come out
    in first-seen order, which is the iteration order of a JavaScript
    object with non-numeric keys and of a Python dict. */
module Tally {
  import opened Seqs

  /** One contribution: the key it is grouped under, the amount it adds to
      that key's total, and the item it appends to that key's list. */
  datatype Tagged<T> = Tagged(tag: string, weight: int, item: T)

  function TagIs<T>(k: string): Tagged<T> -> bool {
    (e: Tagged<T>) => e.tag == k
  }

  function WeightOf<T>(e: Tagged<T>): int {
    e.weight
  }

  function ItemOf<T>(e: Tagged<T>): T {
    e.item
  }

  /** The contributions made under key `k`, in arrival order. */
  function Members<T(!new)>(s: seq<Tagged<T>>, k: string): seq<Tagged<T>> {
    Filter(s, TagIs(k))
  }

  function Total<T(!new)>(s: seq<Tagged<T>>, k: string): int {
    SumBy(Members(s, k), WeightOf)
  }

  function Count<T(!new)>(s: seq<Tagged<T>>, k: string): nat {
    |Members(s, k)|
  }

  function Group<T(!new)>(s: seq<Tagged<T>>, k: string): seq<T> {
    Map(Members(s, k), ItemOf)
  }

  ghost predicate Occurs<T>(s: seq<Tagged<T>>, k: string) {
    exists i :: 0 <= i < |s| && s[i].tag == k
  }

  /** The keys of `s`, each once, in the order they first arrive. */
  function Keys<T>(s: seq<Tagged<T>>): (r: seq<string>)
    ensures Distinct(r)
    ensures forall k :: k in r <==> Occurs(s, k)
  {
    if s == [] then []
    else
      var init, last := s[..|s| - 1], s[|s| - 1];
      var r0 := Keys(init);
      assert forall k :: Occurs(s, k) <==> Occurs(init, k) || last.tag == k by {
        forall k | Occurs(s, k)
          ensures Occurs(init, k) || last.tag == k
        {
          var i :| 0 <= i < |s| && s[i].tag == k;
          if i < |s| - 1 {
            assert init[i] == s[i];
          }
        }
        forall k | Occurs(init, k)
          ensures Occurs(s, k)
        {
          var i :| 0 <= i < |init| && init[i].tag == k;
          assert s[i] == init[i];
        }
      }
      if last.tag in r0 then r0 else r0 + [last.tag]
  }

  /** Appending one contribution extends exactly its own key's members. */
  lemma MembersSnoc<T(!new)>(s: seq<Tagged<T>>, e: Tagged<T>, k: string)
    ensures Members(s + [e], k) == Members(s, k) + (if e.tag == k then [e] else [])
  {
    FilterAppend(s, [e], TagIs(k));
    FilterSingleton(e, TagIs(k));
  }

  lemma TotalSnoc<T(!new)>(s: seq<Tagged<T>>, e: Tagged<T>, k: string)
    ensures Total(s + [e], k) == Total(s, k) + (if e.tag == k then e.weight else 0)
    ensures Count(s + [e], k) == Count(s, k) + (if e.tag == k then 1 else 0)
    ensures Group(s + [e], k) == Group(s, k) + (if e.tag == k then [e.item] else [])
  {
    MembersSnoc(s, e, k);
    var tail: seq<Tagged<T>> := if e.tag == k then [e] else [];
    SumByAppend(Members(s, k), tail, WeightOf);
    MapAppend(Members(s, k), tail, ItemOf);
    if e.tag == k {
      assert SumBy(tail, WeightOf) == e.weight;
      assert Map(tail, ItemOf) == [e.item];
    }
  }

  /** A single contribution counts for its own key only. */
  lemma SingleContribution<T(!new)>(e: Tagged<T>, k: string)
    ensures Total([e], k) == (if e.tag == k then e.weight else 0)
    ensures Count([e], k) == (if e.tag == k then 1 else 0)
  {
    FilterSingleton(e, TagIs(k));
    if e.tag == k {
      assert SumBy([e], WeightOf) == e.weight + SumBy([e][1..], WeightOf);
    }
  }

  /** Grouping distributes over concatenation. */
  lemma TotalAppend<T(!new)>(a: seq<Tagged<T>>, b: seq<Tagged<T>>, k: string)
    ensures Members(a + b, k) == Members(a, k) + Members(b, k)
    ensures Total(a + b, k) == Total(a, k) + Total(b, k)
    ensures Count(a + b, k) == Count(a, k) + Count(b, k)
  {
    FilterAppend(a, b, TagIs(k));
    SumByAppend(Members(a, k), Members(b, k), WeightOf);
  }

  /** The contributions whose key passes `keep`. */
  function TagIn<T>(keep: string -> bool): Tagged<T> -> bool {
    (e: Tagged<T>) => keep(e.tag)
  }

  /** Dropping the contributions of some keys leaves the other keys'
      members as they were. */
  lemma MembersOfKept<T(!new)>(s: seq<Tagged<T>>, keep: string -> bool, k: string)
    ensures Members(Filter(s, TagIn(keep)), k) == if keep(k) then Members(s, k) else []
  {
    if keep(k) {
      FilterNarrow(s, TagIn(keep), TagIs(k));
    } else {
      FilterMembers(s, TagIn(keep));
      FilterNone(Filter(s, TagIn(keep)), TagIs(k));
    }
  }

  /** A key with a member arrives somewhere. */
  lemma MembersWitness<T(!new)>(s: seq<Tagged<T>>, k: string)
    ensures Members(s, k) != [] ==> Occurs(s, k)
  {
    var m := Members(s, k);
    if m != [] {
      FilterMembers(s, TagIs(k));
      assert m[0] in s;
      var i :| 0 <= i < |s| && s[i] == m[0];
      assert s[i].tag == k;
    }
  }

  /** A key that never arrives has no members. */
  lemma AbsentKey<T(!new)>(s: seq<Tagged<T>>, k: string)
    requires !Occurs(s, k)
    ensures Members(s, k) == []
    ensures Total(s, k) == 0 && Count(s, k) == 0 && Group(s, k) == []
  {
    MembersWitness(s, k);
  }

  /** A key has at least one member exactly when it arrives at all. */
  lemma CountPositive<T(!new)>(s: seq<Tagged<T>>, k: string)
    ensures Count(s, k) > 0 <==> Occurs(s, k)
  {
    if Occurs(s, k) {
      var i :| 0 <= i < |s| && s[i].tag == k;
      FilterMembers(s, TagIs(k));
      assert s[i] in Members(s, k);
    } else {
      AbsentKey(s, k);
    }
  }

  /** What a group-by loop holds under one key. */
  datatype Entry<T> = Entry(total: int, count: nat, items: seq<T>)

  /** The entry a key has after the contributions `s`. */
  function EntryOf<T(!new)>(s: seq<Tagged<T>>, k: string): Entry<T> {
    Entry(Total(s, k), Count(s, k), Group(s, k))
  }

  /** The dictionary a group-by loop holds, plus the order in which its
      keys were created. */
  datatype Accumulator<T> = Accumulator(order: seq<string>, entries: map<string, Entry<T>>)

  /** `acc` is what the loop holds after reading the contributions `p`. */
  ghost predicate Summarises<T(!new)>(acc: Accumulator<T>, p: seq<Tagged<T>>) {
    && acc.order == Keys(p)
    && (forall k :: k in acc.entries <==> Occurs(p, k))
    && (forall k :: k in acc.entries ==> acc.entries[k] == EntryOf(p, k))
  }

  /** Reads one contribution: creates its key's entry on first arrival,
      then adds the weight, bumps the count and appends the item. */
  function Add<T>(acc: Accumulator<T>, e: Tagged<T>): Accumulator<T> {
    var k := e.tag;
    var known := k in acc.entries;
    var before := if known then acc.entries[k] else Entry(0, 0, []);
    Accumulator(if known then acc.order else acc.order + [k],
                acc.entries[k := Entry(before.total + e.weight, before.count + 1, before.items + [e.item])])
  }

  /** Appending one contribution adds its key to the key list unless the
      key has already arrived. */
  lemma KeysSnoc<T>(p: seq<Tagged<T>>, e: Tagged<T>)
    ensures Keys(p + [e]) == if e.tag in Keys(p) then Keys(p) else Keys(p) + [e.tag]
    ensures forall k :: Occurs(p + [e], k) <==> Occurs(p, k) || e.tag == k
  {
    var q := p + [e];
    assert q[..|q| - 1] == p && q[|q| - 1] == e;
  }

  lemma SummarisesSnoc<T(!new)>(acc: Accumulator<T>, p: seq<Tagged<T>>, e: Tagged<T>)
    requires Summarises(acc, p)
    ensures Summarises(Add(acc, e), p + [e])
  {
    KeysSnoc(p, e);
    var r := Add(acc, e);
    forall k | k in r.entries
      ensures r.entries[k] == EntryOf(p + [e], k)
    {
      EntrySnoc(acc, p, e, k);
    }
  }

  /** The entry of key `k` after one more contribution. */
  lemma EntrySnoc<T(!new)>(acc: Accumulator<T>, p: seq<Tagged<T>>, e: Tagged<T>, k: string)
    requires Summarises(acc, p)
    requires k in Add(acc, e).entries
    ensures Add(acc, e).entries[k] == EntryOf(p + [e], k)
  {
    TotalSnoc(p, e, k);
    if k !in acc.entries {
      AbsentKey(p, k);
    }
  }

  /** One pass over `s` building the dictionary, as the scripts' `for`
      loops over records do with a plain object or a `defaultdict`. */
  method Accumulate<T(!new)>(s: seq<Tagged<T>>) returns (acc: Accumulator<T>)
    ensures acc.order == Keys(s)
    ensures forall k :: k in acc.entries <==> Occurs(s, k)
    ensures forall k :: k in acc.entries ==> acc.entries[k] == EntryOf(s, k)
  {
    acc := Accumulator([], map[]);
    var i := 0;
    while i < |s|
      invariant 0 <= i <= |s|
      invariant Summarises(acc, s[..i])
    {
      SummarisesSnoc(acc, s[..i], s[i]);
      assert s[..i + 1] == s[..i] + [s[i]];
      acc := Add(acc, s[i]);
      i := i + 1;
    }
    assert s[..i] == s;
  }

  // ---------------------------------------------------------------------
  // Conservation: the totals of all keys add up to the total weight

  /** The totals of the keys `ks`, added up. */
  function TotalsOver<T(!new)>(s: seq<Tagged<T>>, ks: seq<string>): int {
    if ks == [] then 0 else Total(s, ks[0]) + TotalsOver(s, ks[1..])
  }

  lemma {:induction false} TotalsOverAppend<T(!new)>(s: seq<Tagged<T>>, ks: seq<string>, k: string)
    ensures TotalsOver(s, ks + [k]) == TotalsOver(s, ks) + Total(s, k)
  {
    if ks == [] {
      assert ks + [k] == [k];
    } else {
      assert (ks + [k])[1..] == ks[1..] + [k];
      TotalsOverAppend(s, ks[1..], k);
    }
  }

  lemma {:induction false} TotalsOverSnoc<T(!new)>(s: seq<Tagged<T>>, e: Tagged<T>, ks: seq<string>)
    requires Distinct(ks)
    ensures TotalsOver(s + [e], ks) == TotalsOver(s, ks) + (if e.tag in ks then e.weight else 0)
  {
    if ks != [] {
      TotalSnoc(s, e, ks[0]);
      TotalsOverSnoc(s, e, ks[1..]);
      assert ks == [ks[0]] + ks[1..];
      if e.tag == ks[0] {
        assert e.tag !in ks[1..];
      }
    }
  }

  /** Every contribution's weight lands in exactly one key's total, so the
      totals over all keys add up to the sum of all weights. */
  lemma {:induction false} TotalsConserveWeight<T(!new)>(s: seq<Tagged<T>>)
    ensures TotalsOver(s, Keys(s)) == SumBy(s, WeightOf)
  {
    if s != [] {
      var init, e := s[..|s| - 1], s[|s| - 1];
      assert s == init + [e];
      TotalsConserveWeight(init);
      SumByAppend(init, [e], WeightOf);
      assert SumBy([e], WeightOf) == e.weight;
      var ks := Keys(init);
      TotalsOverSnoc(init, e, ks);
      if e.tag !in ks {
        AbsentKey(init, e.tag);
        TotalSnoc(init, e, e.tag);
        TotalsOverAppend(s, ks, e.tag);
      }
    }
  }

  /** When every contribution weighs what its item weighs, a key's item list
      adds up to that key's total. */
  lemma GroupSumIsTotal<T(!new)>(s: seq<Tagged<T>>, k: string, f: T -> int)
    requires forall e :: e in s ==> e.weight == f(e.item)
    ensures SumBy(Group(s, k), f) == Total(s, k)
  {
    var m := Members(s, k);
    FilterMembers(s, TagIs(k));
    SumMapItems(m, f);
  }

  lemma {:induction false} SumMapItems<T>(m: seq<Tagged<T>>, f: T -> int)
    requires forall e :: e in m ==> e.weight == f(e.item)
    ensures SumBy(Map(m, ItemOf), f) == SumBy(m, WeightOf)
  {
    if m != [] {
      var t := m[1..];
      assert forall e :: e in t ==> e in m;
      SumMapItems(t, f);
      assert m[0] in m;
      assert Map(m, ItemOf)[1..] == Map(t, ItemOf);
    }
  }
}
