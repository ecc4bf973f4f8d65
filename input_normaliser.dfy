/**
 * The input normaliser of the web front end: uploaded tables become the
 * plate-map dictionary and the combination list the protocol template reads,
 * and the combination count is checked against the 96 reaction wells.
 */
module InputNormaliser {
  import opened Wrappers
  import opened Tables
  import opened RobotOps
  import opened PartLookup
  import opened PartAdjacency
  import opened Stages

  /** A row whose first cell holds a value; every other row is dropped. */
  predicate Keyed(row: Row) {
    |row| > 0 && row[0].Present?
  }

  // ---------------------------------------------------------------- process_plate_map_df

  /** The keyed rows of a table, in order and unchanged. */
  function KeyedRows(t: Table): (r: Table)
    ensures |r| <= |t|
  {
    if t == [] then []
    else KeyedRows(t[..|t| - 1]) + (if Keyed(t[|t| - 1]) then [t[|t| - 1]] else [])
  }

  /** process_plate_map_df: one pass over the rows, appending each keyed row. */
  method ProcessPlateMapDf(t: Table) returns (plateMap: Table)
    ensures plateMap == KeyedRows(t)
  {
    plateMap := [];
    var i := 0;
    while i < |t|
      invariant 0 <= i <= |t|
      invariant plateMap == KeyedRows(t[..i])
    {
      assert t[..i + 1][..i] == t[..i];
      if Keyed(t[i]) {
        plateMap := plateMap + [t[i]];
      }
      i := i + 1;
    }
    assert t[..|t|] == t;
  }

  /** Filtering distributes over concatenation ... */
  lemma {:induction false} KeyedRowsConcat(a: Table, b: Table)
    ensures KeyedRows(a + b) == KeyedRows(a) + KeyedRows(b)
  {
    if b == [] {
      assert a + b == a;
    } else {
      var b' := b[..|b| - 1];
      assert (a + b)[..|a + b| - 1] == a + b';
      assert (a + b)[|a + b| - 1] == b[|b| - 1];
      KeyedRowsConcat(a, b');
    }
  }

  /** ... and keeps one row exactly when it is keyed; together these pin KeyedRows down. */
  lemma KeyedRowsSingle(row: Row)
    ensures KeyedRows([row]) == if Keyed(row) then [row] else []
  {
    assert [row][..0] == [];
  }

  /** A row is kept if and only if it is a keyed row of the table. */
  lemma {:induction false} KeyedRowsMembers(t: Table, row: Row)
    ensures row in KeyedRows(t) <==> row in t && Keyed(row)
  {
    if t != [] {
      var init := t[..|t| - 1];
      KeyedRowsMembers(init, row);
      assert t == init + [t[|t| - 1]];
    }
  }

  /** Every row of the result is keyed, so filtering again changes nothing. */
  lemma {:induction false} KeyedRowsIdempotent(t: Table)
    ensures KeyedRows(KeyedRows(t)) == KeyedRows(t)
  {
    if t != [] {
      var init, last := t[..|t| - 1], t[|t| - 1];
      KeyedRowsIdempotent(init);
      var tail := if Keyed(last) then [last] else [];
      KeyedRowsConcat(KeyedRows(init), tail);
      KeyedRowsSingle(last);
    }
  }

  // ---------------------------------------------------------------- generate_plate_maps

  /** The keys generate_plate_maps gives its two entries. */
  const PLATE_MAP_1 := "PlateMap1"
  const PLATE_MAP_2 := "PlateMap2"

  /**
   * generate_plate_maps as written: exactly two entries, the first table's
   * keyed rows under "PlateMap1", then the second's under "PlateMap2".
   */
  method GeneratePlateMaps(fixed: Table, customised: Table) returns (plates: seq<Plate>)
    ensures |plates| == 2
    ensures plates[0] == Plate(PLATE_MAP_1, KeyedRows(fixed))
    ensures plates[1] == Plate(PLATE_MAP_2, KeyedRows(customised))
  {
    var map1 := ProcessPlateMapDf(fixed);
    var map2 := ProcessPlateMapDf(customised);
    plates := [Plate(PLATE_MAP_1, map1), Plate(PLATE_MAP_2, map2)];
  }

  /**
   * The plate maps generate_plate_maps builds are never resolved by find_dna:
   * a part found in them sits under a key the template does not recognise.
   */
  lemma AsWrittenLookupFails(fixed: Table, customised: Table, name: string)
    ensures var plates := [Plate(PLATE_MAP_1, KeyedRows(fixed)), Plate(PLATE_MAP_2, KeyedRows(customised))];
            var r := FindDna(name, plates);
            r == Err(PartNotFound(name)) || r == Err(UnrecognisedPlateName(PLATE_MAP_1))
              || r == Err(UnrecognisedPlateName(PLATE_MAP_2))
  {
    assert FormatOf(PLATE_MAP_1).None? && FormatOf(PLATE_MAP_2).None?;
  }

  /** A part listed by a combination is a key of `combinations_by_part`. */
  lemma {:induction false} PartInOccurrences(combos: seq<Combination>, i: nat, j: nat)
    requires i < |combos| && j < |combos[i].parts|
    ensures combos[i].parts[j] in PartsOf(Occurrences(combos))
  {
    var init, last := combos[..|combos| - 1], combos[|combos| - 1];
    var a, b := Occurrences(init), OccurrencesOf(last);
    assert PartsOf(a + b) == PartsOf(a) + PartsOf(b);
    if i < |combos| - 1 {
      assert init[i] == combos[i];
      PartInOccurrences(init, i, j);
    } else {
      assert PartsOf(b)[j] == combos[i].parts[j];
    }
  }

  /**
   * So any run over those plate maps in which some combination lists a part
   * stops with an error before the assembly program.
   */
  lemma AsWrittenProtocolFails(fixed: Table, customised: Table, combos: seq<Combination>, i: nat)
    requires i < |combos| && |combos[i].parts| > 0
    ensures var plates := [Plate(PLATE_MAP_1, KeyedRows(fixed)), Plate(PLATE_MAP_2, KeyedRows(customised))];
            Protocol(plates, combos).failure.Some?
  {
    var plates := [Plate(PLATE_MAP_1, KeyedRows(fixed)), Plate(PLATE_MAP_2, KeyedRows(customised))];
    var p := combos[i].parts[0];
    PartInOccurrences(combos, i, 0);
    AsWrittenLookupFails(fixed, customised, p);
    ProtocolCompletes(plates, combos);
  }

  /**
   * The intended plate maps: the same two entries under the keys the template
   * recognises, the fixed plate's first.
   */
  method GenerateTaggedPlateMaps(fixed: Table, customised: Table) returns (plates: seq<Plate>)
    ensures plates == [Plate(FIXED_MAP_NAME, KeyedRows(fixed)), Plate(CUSTOMISED_MAP_NAME, KeyedRows(customised))]
  {
    var map1 := ProcessPlateMapDf(fixed);
    var map2 := ProcessPlateMapDf(customised);
    plates := [Plate(FIXED_MAP_NAME, map1), Plate(CUSTOMISED_MAP_NAME, map2)];
  }

  /**
   * Over the intended plate maps find_dna only fails for a missing part or a
   * well past the end of its labware, and otherwise computes the plate's
   * formula: 8*col + row on the fixed plate, 4*col + row on the rack.
   */
  lemma TaggedLookup(fixed: Table, customised: Table, name: string, p: Pos)
    requires FirstAt([Plate(FIXED_MAP_NAME, KeyedRows(fixed)), Plate(CUSTOMISED_MAP_NAME, KeyedRows(customised))], name, p)
    ensures var plates := [Plate(FIXED_MAP_NAME, KeyedRows(fixed)), Plate(CUSTOMISED_MAP_NAME, KeyedRows(customised))];
            FindDna(name, plates) ==
              if p.plate == 0 then
                (if 8 * p.col + p.row < 96 then Ok(DnaWell(0, 8 * p.col + p.row))
                 else Err(WellOutOfRange(FIXED_MAP_NAME, 8 * p.col + p.row, 96)))
              else
                (if 4 * p.col + p.row < 24 then Ok(DnaWell(1, 4 * p.col + p.row))
                 else Err(WellOutOfRange(CUSTOMISED_MAP_NAME, 4 * p.col + p.row, 24)))
  {
    var plates := [Plate(FIXED_MAP_NAME, KeyedRows(fixed)), Plate(CUSTOMISED_MAP_NAME, KeyedRows(customised))];
    FindDnaAt(plates, name, p);
  }

  // ---------------------------------------------------------------- generate_combinations

  /** The comprehension over the remaining cells: their present values, in order. */
  function PresentTexts(cells: seq<Cell>): (r: seq<string>)
    ensures |r| <= |cells|
  {
    if cells == [] then []
    else (if cells[0].Present? then [cells[0].text] else []) + PresentTexts(cells[1..])
  }

  /** A value is kept if and only if some cell holds it. */
  lemma {:induction false} PresentTextsMembers(cells: seq<Cell>, s: string)
    ensures s in PresentTexts(cells) <==> Present(s) in cells
  {
    if cells != [] {
      PresentTextsMembers(cells[1..], s);
      assert cells == [cells[0]] + cells[1..];
    }
  }

  /** The comprehension keeps the cells' order: it distributes over concatenation. */
  lemma {:induction false} PresentTextsConcat(a: seq<Cell>, b: seq<Cell>)
    ensures PresentTexts(a + b) == PresentTexts(a) + PresentTexts(b)
  {
    if a == [] {
      assert a + b == b;
    } else {
      assert (a + b)[0] == a[0];
      assert (a + b)[1..] == a[1..] + b;
      PresentTextsConcat(a[1..], b);
    }
  }

  /** Without missing cells, every value is kept. */
  lemma {:induction false} PresentTextsAllPresent(cells: seq<Cell>)
    requires forall c :: 0 <= c < |cells| ==> cells[c].Present?
    ensures |PresentTexts(cells)| == |cells|
    ensures forall c :: 0 <= c < |cells| ==> PresentTexts(cells)[c] == cells[c].text
  {
    if cells != [] {
      PresentTextsAllPresent(cells[1..]);
    }
  }

  /** The record built from a keyed row. */
  function RecordOf(row: Row): (c: Combination)
    requires Keyed(row)
    ensures Present(c.name) == row[0]
  {
    Combination(row[0].text, PresentTexts(row[1..]))
  }

  /** The records of a table's keyed rows, in order. */
  function Combinations(t: Table): (r: seq<Combination>)
    ensures |r| <= |t|
  {
    if t == [] then []
    else Combinations(t[..|t| - 1]) + (if Keyed(t[|t| - 1]) then [RecordOf(t[|t| - 1])] else [])
  }

  /** generate_combinations: one pass over the rows, appending a record per keyed row. */
  method GenerateCombinations(t: Table) returns (combos: seq<Combination>)
    ensures combos == Combinations(t)
  {
    combos := [];
    var i := 0;
    while i < |t|
      invariant 0 <= i <= |t|
      invariant combos == Combinations(t[..i])
    {
      assert t[..i + 1][..i] == t[..i];
      if |t[i]| > 0 && t[i][0].Present? {
        combos := combos + [Combination(t[i][0].text, PresentTexts(t[i][1..]))];
      }
      i := i + 1;
    }
    assert t[..|t|] == t;
  }

  /**
   * One record per keyed row, in order: its name is the row's first cell and
   * its parts are the row's remaining present cells.
   */
  lemma {:induction false} CombinationsOfKeyedRows(t: Table)
    ensures |Combinations(t)| == |KeyedRows(t)|
    ensures forall k :: 0 <= k < |KeyedRows(t)| ==>
              Keyed(KeyedRows(t)[k]) && Combinations(t)[k] == RecordOf(KeyedRows(t)[k])
  {
    if t != [] {
      CombinationsOfKeyedRows(t[..|t| - 1]);
    }
  }

  /** A table of keyed rows naming three parts gives the expected record. */
  lemma CombinationExample()
    ensures Combinations([[Present("c1"), Present("pA"), Missing, Present("pB")], [Missing, Present("pC")]])
            == [Combination("c1", ["pA", "pB"])]
  {
    var t := [[Present("c1"), Present("pA"), Missing, Present("pB")], [Missing, Present("pC")]];
    assert t[..1] == [t[0]];
    assert [t[0]][..0] == [];
    assert t[0][1..] == [Present("pA"), Missing, Present("pB")];
    assert [Present("pA"), Missing, Present("pB")][1..] == [Missing, Present("pB")];
    assert [Missing, Present("pB")][1..] == [Present("pB")];
    assert [Present("pB")][1..] == [];
    assert PresentTexts([Present("pB")]) == ["pB"];
    assert PresentTexts([Missing, Present("pB")]) == ["pB"];
    assert PresentTexts(t[0][1..]) == ["pA", "pB"];
  }

  // ---------------------------------------------------------------- check_number_of_combinations

  /** The reaction plate has 96 wells, one per combination. */
  const MAX_COMBINATIONS := 96

  datatype AppError = TooManyCombinations(count: nat)  // ValueError raised by the check

  /** check_number_of_combinations: an error exactly when more than 96 are requested. */
  function CheckNumberOfCombinations(combos: seq<Combination>): (r: Option<AppError>)
    ensures r.Some? <==> |combos| > MAX_COMBINATIONS
    ensures r.Some? ==> r.value == TooManyCombinations(|combos|)
  {
    if |combos| > MAX_COMBINATIONS then Some(TooManyCombinations(|combos|)) else None
  }
}
