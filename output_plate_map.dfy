/**
 * The list-building half of generate_and_save_output_plate_maps: the
 * combination names are laid out two to a column, then the columns are
 * turned into rows, giving the layout of the reaction plate map offered
 * for download.
 */
module OutputPlateMap {
  import opened Wrappers
  import opened Tables

  function Min(a: int, b: int): int { if a < b then a else b }
  function Max(a: int, b: int): int { if a < b then b else a }

  // ---------------------------------------------------------------- two names to a column

  /**
   * The flipped map: column k holds names 2k and 2k+1, and the last column
   * holds one name when the count is odd.
   */
  method PairColumns(combos: seq<Combination>) returns (flipped: seq<seq<string>>)
    ensures |flipped| == (|combos| + 1) / 2
    ensures forall k :: 0 <= k < |flipped| ==>
              flipped[k] == Names(combos)[2 * k .. Min(2 * k + 2, |combos|)]
  {
    ghost var names := Names(combos);
    flipped := [];
    for i := 0 to |combos|
      invariant |flipped| == (i + 1) / 2
      invariant forall k :: 0 <= k < |flipped| ==> flipped[k] == names[2 * k .. Min(2 * k + 2, i)]
    {
      var name := combos[i].name;
      if i % 2 == 0 {
        flipped := flipped + [[name]];
      } else {
        flipped := flipped[|flipped| - 1 := flipped[|flipped| - 1] + [name]];
      }
    }
  }

  // ---------------------------------------------------------------- the transpose

  /** The length of the longest row. */
  function MaxLen(rows: seq<seq<string>>): nat {
    if rows == [] then 0 else Max(MaxLen(rows[..|rows| - 1]), |rows[|rows| - 1]|)
  }

  /** Entry `j` of each row long enough to have one, in row order. */
  function Column(rows: seq<seq<string>>, j: nat): seq<string> {
    if rows == [] then []
    else
      var last := rows[|rows| - 1];
      Column(rows[..|rows| - 1], j) + (if j < |last| then [last[j]] else [])
  }

  /** No row reaches past the longest one. */
  lemma {:induction false} ColumnBeyond(rows: seq<seq<string>>, j: nat)
    requires j >= MaxLen(rows)
    ensures Column(rows, j) == []
  {
    if rows != [] {
      ColumnBeyond(rows[..|rows| - 1], j);
    }
  }

  /**
   * The transpose loop: row `j` of the result collects entry `j` of every
   * input row long enough to have one, so there are as many result rows as
   * the longest input row is long.
   */
  method Transpose(rows: seq<seq<string>>) returns (out: seq<seq<string>>)
    ensures |out| == MaxLen(rows)
    ensures forall j :: 0 <= j < |out| ==> out[j] == Column(rows, j)
  {
    out := [];
    for i := 0 to |rows|
      invariant |out| == MaxLen(rows[..i])
      invariant forall j :: 0 <= j < |out| ==> out[j] == Column(rows[..i], j)
    {
      assert rows[..i + 1][..i] == rows[..i];
      ghost var prev := out;
      var row := rows[i];
      for j := 0 to |row|
        invariant |out| == Max(|prev|, j)
        invariant forall c :: 0 <= c < |out| ==>
                    out[c] == Column(rows[..i], c) + (if c < j then [row[c]] else [])
      {
        if j >= |out| {
          ColumnBeyond(rows[..i], j);
          out := out + [[row[j]]];
        } else {
          out := out[j := out[j] + [row[j]]];
        }
      }
    }
    assert rows[..|rows|] == rows;
  }

  // ---------------------------------------------------------------- the layout

  /** The names at even positions, then the names at odd positions. */
  function Evens(names: seq<string>): (r: seq<string>)
    ensures |r| == (|names| + 1) / 2 && forall c :: 0 <= c < |r| ==> r[c] == names[2 * c]
  {
    seq((|names| + 1) / 2, c requires 0 <= c < (|names| + 1) / 2 => names[2 * c])
  }

  function Odds(names: seq<string>): (r: seq<string>)
    ensures |r| == |names| / 2 && forall c :: 0 <= c < |r| ==> r[c] == names[2 * c + 1]
  {
    seq(|names| / 2, c requires 0 <= c < |names| / 2 => names[2 * c + 1])
  }

  /** The reference layout: no rows, one row, or the even names above the odd ones. */
  function Layout(names: seq<string>): seq<seq<string>> {
    if |names| == 0 then []
    else if |names| == 1 then [Evens(names)]
    else [Evens(names), Odds(names)]
  }

  /**
   * There are at most two rows, of ceil(n/2) and floor(n/2) names; no names
   * give an empty map and one name the single row holding it.
   */
  lemma LayoutShape(names: seq<string>)
    ensures |Layout(names)| == Min(|names|, 2)
    ensures |names| > 0 ==> |Layout(names)[0]| == (|names| + 1) / 2
    ensures |names| > 1 ==> |Layout(names)[1]| == |names| / 2
    ensures |names| == 1 ==> Layout(names) == [[names[0]]]
  {
    if |names| == 1 {
      assert Evens(names) == [names[0]];
    }
  }

  /** Every cell of the layout holds name 2c + r, row r, column c. */
  lemma LayoutCells(names: seq<string>, r: nat, c: nat)
    requires r < |Layout(names)| && c < |Layout(names)[r]|
    ensures 2 * c + r < |names| && Layout(names)[r][c] == names[2 * c + r]
  {
  }

  /** Name `i` sits at row i % 2, column i / 2: with the cells, each name appears once. */
  lemma LayoutPlacesEveryName(names: seq<string>, i: nat)
    requires i < |names|
    ensures i % 2 < |Layout(names)| && i / 2 < |Layout(names)[i % 2]|
    ensures Layout(names)[i % 2][i / 2] == names[i]
  {
    var r, c := i % 2, i / 2;
    assert i == 2 * c + r;
    if |names| == 1 {
      assert Layout(names) == [Evens(names)];
    }
  }

  lemma EvensSnoc(init: seq<string>, x: string)
    ensures Evens(init + [x]) == if |init| % 2 == 0 then Evens(init) + [x] else Evens(init)
  {
    var e, e' := Evens(init + [x]), Evens(init);
    if |init| % 2 == 0 {
      assert |e| == |e'| + 1;
      assert forall c :: 0 <= c < |e'| ==> e[c] == e'[c];
      assert e[|e'|] == x;
    } else {
      assert |e| == |e'|;
      assert forall c :: 0 <= c < |e'| ==> e[c] == e'[c];
    }
  }

  lemma OddsSnoc(init: seq<string>, x: string)
    ensures Odds(init + [x]) == if |init| % 2 == 1 then Odds(init) + [x] else Odds(init)
  {
    var o, o' := Odds(init + [x]), Odds(init);
    if |init| % 2 == 1 {
      assert |o| == |o'| + 1;
      assert forall c :: 0 <= c < |o'| ==> o[c] == o'[c];
      assert o[|o'|] == x;
    } else {
      assert |o| == |o'|;
      assert forall c :: 0 <= c < |o'| ==> o[c] == o'[c];
    }
  }

  /** The even and the odd names together are the names, each as often as it occurs. */
  lemma {:induction false} EvensOddsPermutation(names: seq<string>)
    ensures multiset(Evens(names)) + multiset(Odds(names)) == multiset(names)
  {
    if names != [] {
      var init, x := names[..|names| - 1], names[|names| - 1];
      EvensOddsPermutation(init);
      assert names == init + [x];
      EvensSnoc(init, x);
      OddsSnoc(init, x);
    }
  }

  /** Read row by row, the layout holds every name exactly as often as the input does. */
  lemma LayoutPermutation(names: seq<string>)
    ensures multiset(Flatten(Layout(names))) == multiset(names)
  {
    EvensOddsPermutation(names);
    if |names| == 1 {
      assert Evens(names) == names;
    } else if |names| > 1 {
      FlattenConcat([Evens(names)], [Odds(names)]);
    }
  }

  /** Four names give the rows A, C and B, D. */
  lemma FourNamesExample()
    ensures Layout(["A", "B", "C", "D"]) == [["A", "C"], ["B", "D"]]
  {
    var names := ["A", "B", "C", "D"];
    assert Evens(names) == ["A", "C"];
    assert Odds(names) == ["B", "D"];
  }

  /** The columns of the flipped map are the reference layout's rows. */
  lemma {:induction false} ColumnsOfPairs(names: seq<string>, rows: seq<seq<string>>)
    requires |rows| <= (|names| + 1) / 2
    requires forall k :: 0 <= k < |rows| ==> rows[k] == names[2 * k .. Min(2 * k + 2, |names|)]
    ensures MaxLen(rows) == if rows == [] then 0 else Min(2, |names|)
    ensures |Column(rows, 0)| == |rows|
    ensures forall c :: 0 <= c < |rows| ==> Column(rows, 0)[c] == names[2 * c]
    ensures |Column(rows, 1)| == Min(|rows|, |names| / 2)
    ensures forall c :: 0 <= c < |Column(rows, 1)| ==> Column(rows, 1)[c] == names[2 * c + 1]
  {
    if rows != [] {
      var m := |rows|;
      var init, last := rows[..m - 1], rows[m - 1];
      ColumnsOfPairs(names, init);
      assert last == names[2 * (m - 1) .. Min(2 * m, |names|)];
      var c0, c1 := Column(init, 0), Column(init, 1);
      assert Column(rows, 0) == c0 + [last[0]];
      assert Column(rows, 1) == c1 + (if 1 < |last| then [last[1]] else []);
    }
  }

  /**
   * generate_and_save_output_plate_maps up to its CSV serialisation: the
   * plate map it writes is the reference layout of the combination names.
   */
  method GenerateOutputPlateMap(combos: seq<Combination>) returns (out: seq<seq<string>>)
    ensures out == Layout(Names(combos))
  {
    var flipped := PairColumns(combos);
    out := Transpose(flipped);
    var names := Names(combos);
    ColumnsOfPairs(names, flipped);
    assert |out| == |Layout(names)|;
    if |out| > 0 {
      assert out[0] == Layout(names)[0];
    }
    if |out| > 1 {
      assert out[1] == Layout(names)[1];
    }
  }
}
