/**
 * create_protocol: the protocol file is the template text with two
 * assignments placed in front of it, one binding the encoded plate-map
 * dictionary and one the encoded combination list. The JSON encoder is
 * not modelled; it enters as the two encoding functions.
 */
module ProtocolText {
  import opened Tables

  const PLATE_MAP_HEADER := "dna_plate_map_dict = "
  const COMBINATIONS_HEADER := "combinations_to_make = "
  const BLANK_LINE := "\n\n"

  /** The two assignment lines in front of the template. */
  function Preamble(platesText: string, combosText: string): string {
    PLATE_MAP_HEADER + platesText + BLANK_LINE + COMBINATIONS_HEADER + combosText + BLANK_LINE
  }

  /**
   * The protocol text: the plate-map assignment, then the combination
   * assignment, then the template unchanged as the suffix.
   */
  function CreateProtocol(plates: seq<Plate>, combos: seq<Combination>, template: string,
                          encodePlates: seq<Plate> -> string,
                          encodeCombos: seq<Combination> -> string): (r: string)
    ensures PLATE_MAP_HEADER <= r
    ensures |r| == |Preamble(encodePlates(plates), encodeCombos(combos))| + |template|
    ensures r[|r| - |template|..] == template
  {
    Preamble(encodePlates(plates), encodeCombos(combos)) + template
  }

  /**
   * After the first header come the encoded plate maps and a blank line, then
   * the second header, the encoded combinations and a blank line: both
   * encodings can be read back from the text at fixed offsets.
   */
  lemma CreateProtocolFields(plates: seq<Plate>, combos: seq<Combination>, template: string,
                             encodePlates: seq<Plate> -> string,
                             encodeCombos: seq<Combination> -> string)
    ensures var r := CreateProtocol(plates, combos, template, encodePlates, encodeCombos);
            var platesText, combosText := encodePlates(plates), encodeCombos(combos);
            var p := |PLATE_MAP_HEADER|;
            var q := p + |platesText| + |BLANK_LINE|;
            var c := q + |COMBINATIONS_HEADER|;
            && r[..p] == PLATE_MAP_HEADER
            && r[p..p + |platesText|] == platesText
            && r[p + |platesText|..q] == BLANK_LINE
            && r[q..c] == COMBINATIONS_HEADER
            && r[c..c + |combosText|] == combosText
            && r[c + |combosText|..c + |combosText| + |BLANK_LINE|] == BLANK_LINE
            && r[c + |combosText| + |BLANK_LINE|..] == template
  {
    SevenPieces(PLATE_MAP_HEADER, encodePlates(plates), BLANK_LINE, COMBINATIONS_HEADER, encodeCombos(combos), BLANK_LINE, template);
  }

  /** Seven texts joined end to end can each be read back at the sum of the lengths before it. */
  lemma SevenPieces(a: string, b: string, c: string, d: string, e: string, f: string, g: string)
    ensures var r := a + b + c + d + e + f + g;
            var i1 := |a|; var i2 := i1 + |b|; var i3 := i2 + |c|; var i4 := i3 + |d|;
            var i5 := i4 + |e|; var i6 := i5 + |f|;
            && r[..i1] == a && r[i1..i2] == b && r[i2..i3] == c && r[i3..i4] == d
            && r[i4..i5] == e && r[i5..i6] == f && r[i6..] == g
  {
    var r := a + b + c + d + e + f + g;
    assert r == a + (b + (c + (d + (e + (f + g)))));
  }

  /**
   * The same template with the same encodings gives the same text, and a
   * different template gives a different text: the template is carried
   * through byte for byte.
   */
  lemma CreateProtocolKeepsTemplate(plates: seq<Plate>, combos: seq<Combination>, t1: string, t2: string,
                                    encodePlates: seq<Plate> -> string,
                                    encodeCombos: seq<Combination> -> string)
    ensures (CreateProtocol(plates, combos, t1, encodePlates, encodeCombos)
             == CreateProtocol(plates, combos, t2, encodePlates, encodeCombos)) <==> t1 == t2
  {
    var pre := Preamble(encodePlates(plates), encodeCombos(combos));
    if pre + t1 == pre + t2 {
      assert t1 == (pre + t1)[|pre|..];
      assert t2 == (pre + t2)[|pre|..];
    }
  }
}
