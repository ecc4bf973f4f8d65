/**
 * `find_dna` and `find_combination` of the protocol template: the read-only
 * searches that turn a part name into a source well and a combination name
 * into its reaction well.
 */
module PartLookup {
  import opened Wrappers
  import opened Tables
  import opened RobotOps

  /** The two plate-map keys the template recognises. */
  const FIXED_MAP_NAME := "fixed_input_dna_map"
  const CUSTOMISED_MAP_NAME := "customised_input_dna_map"

  /** The explicit tag behind a plate-map key. */
  datatype PlateFormat = FixedFormat | CustomisedFormat

  /** The tag a key selects; `None` for any other key. */
  function FormatOf(plateName: string): (f: Option<PlateFormat>)
    ensures f.None? <==> plateName != FIXED_MAP_NAME && plateName != CUSTOMISED_MAP_NAME
  {
    if plateName == FIXED_MAP_NAME then Some(FixedFormat)
    else if plateName == CUSTOMISED_MAP_NAME then Some(CustomisedFormat)
    else None
  }

  /**
   * Linear well index of (row, column): column-major over 8 rows on the fixed
   * 96-well plate, over 4 rows on the customised 24-tube rack.
   */
  function WellNumber(f: PlateFormat, row: nat, col: nat): nat {
    match f
    case FixedFormat => 8 * col + row
    case CustomisedFormat => 4 * col + row
  }

  /**
   * Well counts of the labware loaded for the plate-map entries, by position:
   * the first key gets a 96-well plate, the second a 24-tube rack, and no
   * other key gets labware.
   */
  const LABWARE_WELLS: seq<nat> := [96, 24]

  datatype LookupError =
    | PartNotFound(part: string)                // ValueError raised by find_dna
    | NoLabware(plateName: string)             // KeyError on dna_plate_dict
    | UnrecognisedPlateName(plateName: string) // well_num left unassigned
    | WellOutOfRange(plateName: string, wellNumber: nat, wellCount: nat)  // IndexError on wells()
    | CombinationNotFound(combination: string) // ValueError raised by find_combination
    | TooFewPlateMaps(count: nat)              // IndexError on the list of plate-map keys

  /** A cell position: plate-map entry, row, column. */
  datatype Pos = Pos(plate: nat, row: nat, col: nat)

  /** `name` sits at position `p`. */
  predicate At(plates: seq<Plate>, name: string, p: Pos) {
    && p.plate < |plates|
    && p.row < |plates[p.plate].grid|
    && p.col < |plates[p.plate].grid[p.row]|
    && plates[p.plate].grid[p.row][p.col] == Present(name)
  }

  /** `p` comes before `q` in the iteration order of find_dna's three loops. */
  predicate Before(p: Pos, q: Pos) {
    || p.plate < q.plate
    || (p.plate == q.plate && p.row < q.row)
    || (p.plate == q.plate && p.row == q.row && p.col < q.col)
  }

  /** `p` is the first position holding `name`. */
  ghost predicate FirstAt(plates: seq<Plate>, name: string, p: Pos) {
    At(plates, name, p) && forall q :: Before(q, p) ==> !At(plates, name, q)
  }

  /** The innermost loop: first column from `j` on whose cell is `name`. */
  function FindInRow(row: Row, name: string, j: nat): (r: Option<nat>)
    decreases |row| - j
    ensures r.Some? ==> j <= r.value < |row| && row[r.value] == Present(name)
    ensures r.Some? ==> forall c :: j <= c < r.value ==> row[c] != Present(name)
    ensures r.None? ==> forall c :: j <= c < |row| ==> row[c] != Present(name)
  {
    if j >= |row| then None
    else if row[j] == Present(name) then Some(j)
    else FindInRow(row, name, j + 1)
  }

  /** The middle loop: first (row, column) from row `i` on. */
  function FindInGrid(grid: seq<Row>, name: string, i: nat): (r: Option<(nat, nat)>)
    decreases |grid| - i
    ensures r.Some? ==> i <= r.value.0 < |grid| && r.value.1 < |grid[r.value.0]|
    ensures r.Some? ==> grid[r.value.0][r.value.1] == Present(name)
    ensures r.Some? ==> forall c :: 0 <= c < r.value.1 ==> grid[r.value.0][c] != Present(name)
    ensures r.Some? ==> forall a, c :: i <= a < r.value.0 && 0 <= c < |grid[a]| ==> grid[a][c] != Present(name)
    ensures r.None? ==> forall a, c :: i <= a < |grid| && 0 <= c < |grid[a]| ==> grid[a][c] != Present(name)
  {
    if i >= |grid| then None
    else match FindInRow(grid[i], name, 0)
      case Some(j) => Some((i, j))
      case None => FindInGrid(grid, name, i + 1)
  }

  /** The outer loop: first position from plate-map entry `k` on. */
  function FindInPlates(plates: seq<Plate>, name: string, k: nat): (r: Option<Pos>)
    decreases |plates| - k
    ensures r.Some? ==> k <= r.value.plate && At(plates, name, r.value)
    ensures r.Some? ==> forall q: Pos :: k <= q.plate && Before(q, r.value) ==> !At(plates, name, q)
    ensures r.None? ==> forall q: Pos :: k <= q.plate ==> !At(plates, name, q)
  {
    if k >= |plates| then None
    else match FindInGrid(plates[k].grid, name, 0)
      case Some(rc) => Some(Pos(k, rc.0, rc.1))
      case None => FindInPlates(plates, name, k + 1)
  }

  /** The first position of `name` over all plate maps, searched in order. */
  function FirstMatch(plates: seq<Plate>, name: string): (r: Option<Pos>)
    ensures r.Some? ==> FirstAt(plates, name, r.value)
    ensures r.None? ==> forall q :: !At(plates, name, q)
  {
    FindInPlates(plates, name, 0)
  }

  /** find_dna: the source well of part `name`, or the error the template raises. */
  function FindDna(name: string, plates: seq<Plate>): (r: Result<Loc, LookupError>)
    ensures r == Err(PartNotFound(name)) <==> forall q :: !At(plates, name, q)
    ensures r.Ok? ==> r.value.DnaWell? && r.value.plate < |LABWARE_WELLS|
                      && r.value.index < LABWARE_WELLS[r.value.plate]
  {
    match FirstMatch(plates, name)
    case None => Err(PartNotFound(name))
    case Some(p) =>
      var plateName := plates[p.plate].name;
      if p.plate >= |LABWARE_WELLS| then Err(NoLabware(plateName))
      else match FormatOf(plateName)
        case None => Err(UnrecognisedPlateName(plateName))
        case Some(f) =>
          var w := WellNumber(f, p.row, p.col);
          if w < LABWARE_WELLS[p.plate] then Ok(DnaWell(p.plate, w))
          else Err(WellOutOfRange(plateName, w, LABWARE_WELLS[p.plate]))
  }

  /** Two first positions of the same name coincide. */
  lemma FirstAtUnique(plates: seq<Plate>, name: string, p: Pos, q: Pos)
    requires FirstAt(plates, name, p) && FirstAt(plates, name, q)
    ensures p == q
  {
  }

  /**
   * What find_dna answers for a part whose first occurrence is `p`: the
   * fixed-plate formula 8*col + row, the customised-rack formula 4*col + row,
   * and an error for a key without labware, an unrecognised key and a well
   * the labware does not have.
   */
  lemma {:induction false} FindDnaAt(plates: seq<Plate>, name: string, p: Pos)
    requires FirstAt(plates, name, p)
    ensures p.plate >= 2 ==> FindDna(name, plates) == Err(NoLabware(plates[p.plate].name))
    ensures p.plate < 2 && FormatOf(plates[p.plate].name).None? ==>
              FindDna(name, plates) == Err(UnrecognisedPlateName(plates[p.plate].name))
    ensures p.plate < 2 && plates[p.plate].name == FIXED_MAP_NAME ==>
              FindDna(name, plates) ==
                if 8 * p.col + p.row < LABWARE_WELLS[p.plate] then Ok(DnaWell(p.plate, 8 * p.col + p.row))
                else Err(WellOutOfRange(FIXED_MAP_NAME, 8 * p.col + p.row, LABWARE_WELLS[p.plate]))
    ensures p.plate < 2 && plates[p.plate].name == CUSTOMISED_MAP_NAME ==>
              FindDna(name, plates) ==
                if 4 * p.col + p.row < LABWARE_WELLS[p.plate] then Ok(DnaWell(p.plate, 4 * p.col + p.row))
                else Err(WellOutOfRange(CUSTOMISED_MAP_NAME, 4 * p.col + p.row, LABWARE_WELLS[p.plate]))
  {
    var m := FirstMatch(plates, name);
    assert At(plates, name, p);
    FirstAtUnique(plates, name, m.value, p);
  }

  /** A successful lookup names a well that holds the part, on a recognised plate map. */
  lemma FindDnaSound(plates: seq<Plate>, name: string)
    requires FindDna(name, plates).Ok?
    ensures exists p :: FirstAt(plates, name, p)
                        && FormatOf(plates[p.plate].name).Some?
                        && FindDna(name, plates) == Ok(DnaWell(p.plate, WellNumber(FormatOf(plates[p.plate].name).value, p.row, p.col)))
  {
    var p := FirstMatch(plates, name).value;
    assert FirstAt(plates, name, p);
  }

  /** The fixed-plate example: a part at row 2, column 1 is in well 10. */
  lemma FixedPlateExample()
    ensures FindDna("pA", [Plate(FIXED_MAP_NAME, [[Missing, Missing], [Missing, Missing], [Missing, Present("pA")]])])
            == Ok(DnaWell(0, 10))
  {
    var plates := [Plate(FIXED_MAP_NAME, [[Missing, Missing], [Missing, Missing], [Missing, Present("pA")]])];
    FindDnaAt(plates, "pA", Pos(0, 2, 1));
  }

  /** The customised-rack example: a part at row 1, column 3 is in tube 13. */
  lemma CustomisedRackExample()
    ensures FindDna("pB", [Plate(FIXED_MAP_NAME, []),
                           Plate(CUSTOMISED_MAP_NAME, [[], [Missing, Missing, Missing, Present("pB")]])])
            == Ok(DnaWell(1, 13))
  {
    var plates := [Plate(FIXED_MAP_NAME, []),
                   Plate(CUSTOMISED_MAP_NAME, [[], [Missing, Missing, Missing, Present("pB")]])];
    FindDnaAt(plates, "pB", Pos(1, 1, 3));
  }

  /**
   * find_combination: the reaction well of combination `name`, the index of
   * the first combination so named.
   */
  function FindCombination(name: string, combos: seq<Combination>): (r: Result<nat, LookupError>)
    ensures r.Ok? ==> r.value < |combos| && combos[r.value].name == name
    ensures r.Ok? ==> forall t :: 0 <= t < r.value ==> combos[t].name != name
    ensures r.Err? <==> forall t :: 0 <= t < |combos| ==> combos[t].name != name
    ensures r.Err? ==> r.error == CombinationNotFound(name)
  {
    if combos == [] then Err(CombinationNotFound(name))
    else if combos[0].name == name then Ok(0)
    else match FindCombination(name, combos[1..])
      case Ok(i) => Ok(i + 1)
      case Err(e) => Err(e)
  }

  /** With distinct names, combination `i` is found at reaction well `i`. */
  lemma FindCombinationDistinct(combos: seq<Combination>, i: nat)
    requires DistinctNames(combos) && i < |combos|
    ensures FindCombination(combos[i].name, combos) == Ok(i)
  {
    var r := FindCombination(combos[i].name, combos);
    assert r.Ok?;
  }
}
