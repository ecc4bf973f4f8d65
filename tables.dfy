/** The values that flow from the input normaliser into the protocol template. */
module Tables {

  /** One cell of an uploaded table; `Missing` is an empty (NaN) cell. */
  datatype Cell = Missing | Present(text: string)

  type Row = seq<Cell>
  type Table = seq<Row>

  /** A requested assembly: the reaction's name and the DNA parts it combines. */
  datatype Combination = Combination(name: string, parts: seq<string>)

  /** One entry of `dna_plate_map_dict`: a plate map's key and its grid of part names. */
  datatype Plate = Plate(name: string, grid: seq<seq<Cell>>)

  /** Every row of a table read from a CSV file has at least one column. */
  predicate RowsNonEmpty(t: Table) {
    forall i :: 0 <= i < |t| ==> |t[i]| > 0
  }

  /** The combination names, in input order. */
  function Names(combos: seq<Combination>): (r: seq<string>)
    ensures |r| == |combos|
    ensures forall i :: 0 <= i < |combos| ==> r[i] == combos[i].name
  {
    seq(|combos|, i requires 0 <= i < |combos| => combos[i].name)
  }

  /** No two combinations share a name. */
  predicate DistinctNames(combos: seq<Combination>) {
    forall i, j :: 0 <= i < j < |combos| ==> combos[i].name != combos[j].name
  }
}
