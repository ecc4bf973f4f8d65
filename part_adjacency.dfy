/**
 * The `combinations_by_part` build of the protocol template: the combination
 * list inverted into an insertion-ordered dictionary from each part to the
 * names of the combinations that use it.
 */
module PartAdjacency {
  import opened Wrappers
  import opened Tables

  /** One part entry of one combination. */
  datatype Occurrence = Occurrence(part: string, combination: string)

  /** The part entries of one combination, in order. */
  function OccurrencesOf(c: Combination): (r: seq<Occurrence>)
    ensures |r| == |c.parts|
    ensures forall j :: 0 <= j < |r| ==> r[j] == Occurrence(c.parts[j], c.name)
  {
    seq(|c.parts|, j requires 0 <= j < |c.parts| => Occurrence(c.parts[j], c.name))
  }

  /** Every part entry of every combination, in the order the nested loop visits them. */
  function Occurrences(combos: seq<Combination>): seq<Occurrence> {
    if combos == [] then []
    else Occurrences(combos[..|combos| - 1]) + OccurrencesOf(combos[|combos| - 1])
  }

  /** The number of part entries over all combinations. */
  function TotalParts(combos: seq<Combination>): nat {
    if combos == [] then 0 else TotalParts(combos[..|combos| - 1]) + |combos[|combos| - 1].parts|
  }

  function PartsOf(occ: seq<Occurrence>): (r: seq<string>)
    ensures |r| == |occ| && forall i :: 0 <= i < |occ| ==> r[i] == occ[i].part
  {
    seq(|occ|, i requires 0 <= i < |occ| => occ[i].part)
  }

  function NamesOf(occ: seq<Occurrence>): (r: seq<string>)
    ensures |r| == |occ| && forall i :: 0 <= i < |occ| ==> r[i] == occ[i].combination
  {
    seq(|occ|, i requires 0 <= i < |occ| => occ[i].combination)
  }

  /** The distinct elements of `s`, in order of first appearance. */
  function FirstAppearances(s: seq<string>): seq<string> {
    if s == [] then []
    else
      var d := FirstAppearances(s[..|s| - 1]);
      if s[|s| - 1] in d then d else d + [s[|s| - 1]]
  }

  /** The names of the combinations using `part`, one per occurrence, in order. */
  function NamesFor(occ: seq<Occurrence>, part: string): seq<string> {
    if occ == [] then []
    else NamesFor(occ[..|occ| - 1], part) + (if occ[|occ| - 1].part == part then [occ[|occ| - 1].combination] else [])
  }

  predicate Distinct(s: seq<string>) {
    forall a, b :: 0 <= a < b < |s| ==> s[a] != s[b]
  }

  /** The index of the first `x` in `s`. */
  function FirstIndex(s: seq<string>, x: string): (r: nat)
    requires x in s
    ensures r < |s| && s[r] == x && forall t :: 0 <= t < r ==> s[t] != x
  {
    if s[0] == x then 0 else 1 + FirstIndex(s[1..], x)
  }

  /** One entry of `combinations_by_part`, in the order the fan-out visits it. */
  datatype PartUse = PartUse(part: string, combinations: seq<string>)

  /** The dictionary `combinations_by_part` as a list of its items. */
  function ByPart(combos: seq<Combination>): (r: seq<PartUse>)
    ensures |r| == |FirstAppearances(PartsOf(Occurrences(combos)))|
  {
    var occ := Occurrences(combos);
    var keys := FirstAppearances(PartsOf(occ));
    seq(|keys|, k requires 0 <= k < |keys| => PartUse(keys[k], NamesFor(occ, keys[k])))
  }

  /** The concatenation of the name lists, key by key. */
  function UsesOver(keys: seq<string>, occ: seq<Occurrence>): seq<string> {
    if keys == [] then [] else NamesFor(occ, keys[0]) + UsesOver(keys[1..], occ)
  }

  /** The concatenation of the name lists of a dictionary's items. */
  function AllUses(items: seq<PartUse>): seq<string> {
    if items == [] then [] else items[0].combinations + AllUses(items[1..])
  }

  lemma {:induction false} OccurrencesSnoc(combos: seq<Combination>, i: nat)
    requires i < |combos|
    ensures Occurrences(combos[..i + 1]) == Occurrences(combos[..i]) + OccurrencesOf(combos[i])
  {
    assert combos[..i + 1][..i] == combos[..i];
  }

  lemma {:induction false} OccurrencesCount(combos: seq<Combination>)
    ensures |Occurrences(combos)| == TotalParts(combos)
  {
    if combos != [] {
      OccurrencesCount(combos[..|combos| - 1]);
    }
  }

  lemma PartsOfSnoc(occ: seq<Occurrence>, o: Occurrence)
    ensures PartsOf(occ + [o]) == PartsOf(occ) + [o.part]
    ensures (occ + [o])[..|occ|] == occ
  {
  }

  /**
   * The keys come out distinct, are exactly the parts used, and appear in
   * order of each part's first use.
   */
  lemma {:induction false} FirstAppearancesSpec(s: seq<string>)
    ensures Distinct(FirstAppearances(s))
    ensures forall x :: x in FirstAppearances(s) <==> x in s
    ensures forall a, b :: 0 <= a < b < |FirstAppearances(s)| ==>
              FirstIndex(s, FirstAppearances(s)[a]) < FirstIndex(s, FirstAppearances(s)[b])
  {
    if s != [] {
      var init, x := s[..|s| - 1], s[|s| - 1];
      assert s == init + [x];
      FirstAppearancesSpec(init);
      var d := FirstAppearances(init);
      forall y | y in init
        ensures FirstIndex(s, y) == FirstIndex(init, y)
      {
        FirstIndexPrefix(init, x, y);
      }
      if x !in d {
        assert x !in init;
        assert FirstIndex(s, x) == |init| by { FirstIndexAppended(init, x); }
        forall a | 0 <= a < |d|
          ensures FirstIndex(s, d[a]) < FirstIndex(s, x)
        {
          assert d[a] in init;
        }
      }
    }
  }

  lemma {:induction false} FirstIndexPrefix(init: seq<string>, x: string, y: string)
    requires y in init
    ensures FirstIndex(init + [x], y) == FirstIndex(init, y)
  {
    if init[0] != y {
      assert (init + [x])[1..] == init[1..] + [x];
      FirstIndexPrefix(init[1..], x, y);
    }
  }

  lemma {:induction false} FirstIndexAppended(init: seq<string>, x: string)
    requires x !in init
    ensures FirstIndex(init + [x], x) == |init|
  {
    if init != [] {
      assert (init + [x])[1..] == init[1..] + [x];
      FirstIndexAppended(init[1..], x);
    }
  }

  /** A part never used has no names. */
  lemma {:induction false} NamesForUnused(occ: seq<Occurrence>, part: string)
    requires part !in PartsOf(occ)
    ensures NamesFor(occ, part) == []
  {
    if occ != [] {
      var init := occ[..|occ| - 1];
      PartsOfSnoc(init, occ[|occ| - 1]);
      assert occ == init + [occ[|occ| - 1]];
      NamesForUnused(init, part);
    }
  }

  /** `keys` and `uses` are `combinations_by_part` after the loop has visited `occ`. */
  ghost predicate Represents(keys: seq<string>, uses: map<string, seq<string>>, occ: seq<Occurrence>) {
    && keys == FirstAppearances(PartsOf(occ))
    && (forall p :: p in uses <==> p in keys)
    && (forall p :: p in uses ==> uses[p] == NamesFor(occ, p))
  }

  /** Visiting a part already in the dictionary appends the name to its list. */
  lemma VisitKnownPart(keys: seq<string>, uses: map<string, seq<string>>, occ: seq<Occurrence>, o: Occurrence)
    requires Represents(keys, uses, occ) && o.part in uses
    ensures Represents(keys, uses[o.part := uses[o.part] + [o.combination]], occ + [o])
  {
    PartsOfSnoc(occ, o);
  }

  /** Visiting a new part adds it as the last key, with a one-name list. */
  lemma VisitNewPart(keys: seq<string>, uses: map<string, seq<string>>, occ: seq<Occurrence>, o: Occurrence)
    requires Represents(keys, uses, occ) && o.part !in uses
    ensures Represents(keys + [o.part], uses[o.part := [o.combination]], occ + [o])
  {
    PartsOfSnoc(occ, o);
    FirstAppearancesSpec(PartsOf(occ));
    NamesForUnused(occ, o.part);
  }

  /** The inner loop's progress through one combination's parts. */
  lemma OccurrencesOfPrefix(done: seq<Occurrence>, c: Combination, j: nat)
    requires j <= |c.parts|
    ensures j < |c.parts| ==>
              done + OccurrencesOf(c)[..j + 1] == done + OccurrencesOf(c)[..j] + [Occurrence(c.parts[j], c.name)]
    ensures done + OccurrencesOf(c)[..0] == done
    ensures OccurrencesOf(c)[..|c.parts|] == OccurrencesOf(c)
  {
    if j < |c.parts| {
      assert OccurrencesOf(c)[..j + 1] == OccurrencesOf(c)[..j] + [Occurrence(c.parts[j], c.name)];
    }
  }

  /**
   * The loop that builds `combinations_by_part`: for each combination, for
   * each of its parts, append the combination's name to the part's list,
   * creating the list on the part's first use.  The result is the ordered
   * dictionary as its key order and its map.
   */
  method CombinationsByPart(combos: seq<Combination>) returns (keys: seq<string>, uses: map<string, seq<string>>)
    ensures keys == FirstAppearances(PartsOf(Occurrences(combos)))
    ensures forall p :: p in uses <==> p in keys
    ensures forall p :: p in uses ==> uses[p] == NamesFor(Occurrences(combos), p)
  {
    keys, uses := [], map[];
    for i := 0 to |combos|
      invariant Represents(keys, uses, Occurrences(combos[..i]))
    {
      var name := combos[i].name;
      ghost var done := Occurrences(combos[..i]);
      OccurrencesOfPrefix(done, combos[i], 0);
      for j := 0 to |combos[i].parts|
        invariant Represents(keys, uses, done + OccurrencesOf(combos[i])[..j])
      {
        var part := combos[i].parts[j];
        ghost var occ := done + OccurrencesOf(combos[i])[..j];
        OccurrencesOfPrefix(done, combos[i], j);
        if part in uses {
          VisitKnownPart(keys, uses, occ, Occurrence(part, name));
          uses := uses[part := uses[part] + [name]];
        } else {
          VisitNewPart(keys, uses, occ, Occurrence(part, name));
          keys := keys + [part];
          uses := uses[part := [name]];
        }
      }
      OccurrencesOfPrefix(done, combos[i], |combos[i].parts|);
      OccurrencesSnoc(combos, i);
    }
    assert combos[..|combos|] == combos;
  }

  /** Appending one occurrence adds its combination name once, to its part's list only. */
  lemma {:induction false} UsesOverSnoc(keys: seq<string>, occ: seq<Occurrence>, o: Occurrence)
    requires Distinct(keys)
    ensures multiset(UsesOver(keys, occ + [o])) ==
              multiset(UsesOver(keys, occ)) + (if o.part in keys then multiset{o.combination} else multiset{})
  {
    if keys != [] {
      assert (occ + [o])[..|occ|] == occ;
      UsesOverSnoc(keys[1..], occ, o);
      assert keys[0] !in keys[1..];
      assert o.part in keys <==> o.part == keys[0] || o.part in keys[1..];
    }
  }

  lemma {:induction false} UsesOverAppend(keys: seq<string>, k: string, occ: seq<Occurrence>)
    ensures UsesOver(keys + [k], occ) == UsesOver(keys, occ) + NamesFor(occ, k)
  {
    if keys == [] {
      assert ([k])[1..] == [];
    } else {
      assert (keys + [k])[1..] == keys[1..] + [k];
      UsesOverAppend(keys[1..], k, occ);
    }
  }

  /**
   * The name lists together hold every combination name exactly once per
   * part entry: they are a permutation of the names column of the occurrences.
   */
  lemma {:induction false} UsesArePermutation(occ: seq<Occurrence>)
    ensures multiset(UsesOver(FirstAppearances(PartsOf(occ)), occ)) == multiset(NamesOf(occ))
  {
    if occ != [] {
      var init, o := occ[..|occ| - 1], occ[|occ| - 1];
      assert occ == init + [o];
      UsesArePermutation(init);
      PartsOfSnoc(init, o);
      var d := FirstAppearances(PartsOf(init));
      FirstAppearancesSpec(PartsOf(init));
      UsesOverSnoc(d, init, o);
      assert NamesOf(occ) == NamesOf(init) + [o.combination];
      if o.part !in d {
        UsesOverAppend(d, o.part, occ);
        NamesForUnused(init, o.part);
        assert NamesFor(occ, o.part) == [o.combination];
      }
    }
  }

  lemma {:induction false} AllUsesByPart(keys: seq<string>, occ: seq<Occurrence>)
    ensures AllUses(seq(|keys|, k requires 0 <= k < |keys| => PartUse(keys[k], NamesFor(occ, keys[k]))))
            == UsesOver(keys, occ)
  {
    if keys != [] {
      var items := seq(|keys|, k requires 0 <= k < |keys| => PartUse(keys[k], NamesFor(occ, keys[k])));
      assert items[1..] == seq(|keys[1..]|, k requires 0 <= k < |keys[1..]| => PartUse(keys[1..][k], NamesFor(occ, keys[1..][k])));
      AllUsesByPart(keys[1..], occ);
    }
  }

  /** The keys of a dictionary's items, in order. */
  function Keys(items: seq<PartUse>): (r: seq<string>)
    ensures |r| == |items| && forall k :: 0 <= k < |items| ==> r[k] == items[k].part
  {
    seq(|items|, k requires 0 <= k < |items| => items[k].part)
  }

  /**
   * The properties of `combinations_by_part`: keys distinct, exactly the parts
   * used, in order of first use; each list holds exactly the names of the
   * combinations using that part, one per occurrence, in input order; and the
   * lists together hold every part entry once, so their lengths sum to the
   * total number of part entries.
   */
  lemma ByPartSpec(combos: seq<Combination>)
    ensures Distinct(Keys(ByPart(combos)))
    ensures forall p :: p in Keys(ByPart(combos)) <==> p in PartsOf(Occurrences(combos))
    ensures forall a, b :: 0 <= a < b < |ByPart(combos)| ==>
              FirstIndex(PartsOf(Occurrences(combos)), ByPart(combos)[a].part)
              < FirstIndex(PartsOf(Occurrences(combos)), ByPart(combos)[b].part)
    ensures forall k :: 0 <= k < |ByPart(combos)| ==>
              ByPart(combos)[k].combinations == NamesFor(Occurrences(combos), ByPart(combos)[k].part)
    ensures multiset(AllUses(ByPart(combos))) == multiset(NamesOf(Occurrences(combos)))
    ensures |AllUses(ByPart(combos))| == TotalParts(combos)
  {
    var occ := Occurrences(combos);
    var keys := FirstAppearances(PartsOf(occ));
    var items := ByPart(combos);
    FirstAppearancesSpec(PartsOf(occ));
    assert Keys(items) == keys;
    AllUsesByPart(keys, occ);
    UsesArePermutation(occ);
    OccurrencesCount(combos);
    assert |multiset(AllUses(items))| == |multiset(NamesOf(occ))|;
  }

  const EXAMPLE_COMBINATIONS := [Combination("c1", ["p", "q"]), Combination("c2", ["q", "r", "q"])]
  const EXAMPLE_OCCURRENCES := [Occurrence("p", "c1"), Occurrence("q", "c1"), Occurrence("q", "c2"),
                                Occurrence("r", "c2"), Occurrence("q", "c2")]

  lemma ExampleOccurrences()
    ensures Occurrences(EXAMPLE_COMBINATIONS) == EXAMPLE_OCCURRENCES
  {
    var combos := EXAMPLE_COMBINATIONS;
    assert combos[..1] == [combos[0]];
    assert combos[..1][..0] == [];
    assert Occurrences(combos[..1]) == OccurrencesOf(combos[0]);
    assert Occurrences(combos) == OccurrencesOf(combos[0]) + OccurrencesOf(combos[1]);
    assert OccurrencesOf(combos[0]) == [Occurrence("p", "c1"), Occurrence("q", "c1")];
    assert OccurrencesOf(combos[1]) == [Occurrence("q", "c2"), Occurrence("r", "c2"), Occurrence("q", "c2")];
  }

  lemma ExampleKeys()
    ensures FirstAppearances(["p", "q", "q", "r", "q"]) == ["p", "q", "r"]
  {
    var ps := ["p", "q", "q", "r", "q"];
    assert ps[..4] == ["p", "q", "q", "r"];
    assert ps[..4][..3] == ["p", "q", "q"];
    assert ps[..4][..3][..2] == ["p", "q"];
    assert ps[..4][..3][..2][..1] == ["p"];
    assert ps[..4][..3][..2][..1][..0] == [];
    assert FirstAppearances(["p"]) == ["p"];
    assert FirstAppearances(["p", "q"]) == ["p", "q"];
    assert FirstAppearances(["p", "q", "q"]) == ["p", "q"];
    assert FirstAppearances(["p", "q", "q", "r"]) == ["p", "q", "r"];
  }

  lemma ExampleNames(part: string)
    ensures NamesFor(EXAMPLE_OCCURRENCES, part) ==
              (if part == "p" then ["c1"] else []) + (if part == "q" then ["c1", "c2"] else [])
              + (if part == "r" then ["c2"] else []) + (if part == "q" then ["c2"] else [])
  {
    var occ := EXAMPLE_OCCURRENCES;
    assert occ[..4] == [Occurrence("p", "c1"), Occurrence("q", "c1"), Occurrence("q", "c2"), Occurrence("r", "c2")];
    assert occ[..4][..3] == [Occurrence("p", "c1"), Occurrence("q", "c1"), Occurrence("q", "c2")];
    assert occ[..4][..3][..2] == [Occurrence("p", "c1"), Occurrence("q", "c1")];
    assert occ[..4][..3][..2][..1] == [Occurrence("p", "c1")];
    assert occ[..4][..3][..2][..1][..0] == [];
    assert NamesFor(occ[..4][..3][..2][..1], part) == (if part == "p" then ["c1"] else []);
    assert NamesFor(occ[..4][..3][..2], part) == (if part == "p" then ["c1"] else []) + (if part == "q" then ["c1"] else []);
    assert NamesFor(occ[..4][..3], part) == (if part == "p" then ["c1"] else []) + (if part == "q" then ["c1", "c2"] else []);
    assert NamesFor(occ[..4], part) == (if part == "p" then ["c1"] else []) + (if part == "q" then ["c1", "c2"] else [])
                                        + (if part == "r" then ["c2"] else []);
  }

  /** An example with a shared part and a duplicate entry: keys in first-use order, one name per entry. */
  lemma ByPartExample()
    ensures ByPart(EXAMPLE_COMBINATIONS)
            == [PartUse("p", ["c1"]), PartUse("q", ["c1", "c2", "c2"]), PartUse("r", ["c2"])]
  {
    ExampleOccurrences();
    assert PartsOf(EXAMPLE_OCCURRENCES) == ["p", "q", "q", "r", "q"];
    ExampleKeys();
    ExampleNames("p");
    ExampleNames("q");
    ExampleNames("r");
    var r := ByPart(EXAMPLE_COMBINATIONS);
    assert |r| == 3;
    assert r[0] == PartUse("p", ["c1"]);
    assert r[1] == PartUse("q", ["c1", "c2", "c2"]);
    assert r[2] == PartUse("r", ["c2"]);
  }
}
