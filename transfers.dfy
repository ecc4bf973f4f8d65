/**
 * The two liquid-handling passes of the protocol template that build the
 * assembly reactions: the reagent pre-fill and the batched per-part fan-out.
 */
module Transfers {
  import opened Wrappers
  import opened Tables
  import opened RobotOps
  import opened PartLookup
  import opened PartAdjacency

  /** The reaction plate on the thermocycler has 96 wells. */
  const REACTION_PLATE_WELLS := 96

  /** At most this many wells are served from one aspiration. */
  const MAX_BATCH := 10

  // ---------------------------------------------------------------- pre-fill

  /** Reaction well `i` gets 2 µL of buffer mix from A1 and 8 - N µL of water from B1. */
  function PreFillStep(c: Combination, i: nat): Op {
    Consolidate(P10Single, [2, 8 - |c.parts|], [BUFFER_MIX, WATER], ReactionWell(i))
  }

  /** The consolidates of the pre-fill pass, one per combination, in order. */
  function Consolidations(combos: seq<Combination>): (r: seq<Op>)
    ensures |r| == |combos|
    ensures forall i :: 0 <= i < |combos| ==> r[i] == PreFillStep(combos[i], i)
  {
    if combos == [] then []
    else Consolidations(combos[..|combos| - 1]) + [PreFillStep(combos[|combos| - 1], |combos| - 1)]
  }

  function PreFillOps(combos: seq<Combination>): seq<Op> {
    [PickUpTip(P10Single)] + Consolidations(combos) + [DropTip(P10Single)]
  }

  /** The pre-fill pass: one tip held for every consolidate. */
  method PreFill(combos: seq<Combination>) returns (ops: seq<Op>)
    ensures ops == PreFillOps(combos)
  {
    ops := [PickUpTip(P10Single)];
    for i := 0 to |combos|
      invariant ops == [PickUpTip(P10Single)] + Consolidations(combos[..i])
    {
      var n := |combos[i].parts|;
      ops := ops + [Consolidate(P10Single, [2, 8 - n], [BUFFER_MIX, WATER], ReactionWell(i))];
      assert combos[..i + 1][..i] == combos[..i];
    }
    assert combos[..|combos|] == combos;
    ops := ops + [DropTip(P10Single)];
  }

  lemma {:induction false} ConsolidationsVolume(combos: seq<Combination>, i: nat)
    ensures VolumeInto(Consolidations(combos), ReactionWell(i)) ==
              if i < |combos| then 10 - |combos[i].parts| else 0
  {
    if combos != [] {
      var init, last := combos[..|combos| - 1], combos[|combos| - 1];
      ConsolidationsVolume(init, i);
      VolumeConcat(Consolidations(init), [PreFillStep(last, |combos| - 1)], ReactionWell(i));
      SingleVolume(PreFillStep(last, |combos| - 1), ReactionWell(i));
      SumPair(2, 8 - |last.parts|);
      assert i < |init| ==> combos[i] == init[i];
    }
  }

  lemma {:induction false} ConsolidationsCount(combos: seq<Combination>, k: OpKind)
    ensures CountKind(Consolidations(combos), k) == if k == ConsolidateKind then |combos| else 0
  {
    if combos != [] {
      var init, last := combos[..|combos| - 1], combos[|combos| - 1];
      ConsolidationsCount(init, k);
      SingleOp(PreFillStep(last, |combos| - 1));
      CountConcat(Consolidations(init), [PreFillStep(last, |combos| - 1)], k);
    }
  }

  /**
   * The pre-fill takes one tip for the whole pass and drops it once, and
   * consolidates once per combination.
   */
  lemma PreFillCount(combos: seq<Combination>, k: OpKind)
    ensures CountKind(PreFillOps(combos), k) ==
              if k == PickUpKind || k == DropKind then 1
              else if k == ConsolidateKind then |combos|
              else 0
  {
    ConsolidationsCount(combos, k);
    CountBracket(PickUpTip(P10Single), Consolidations(combos), DropTip(P10Single), k);
  }

  /**
   * The pre-fill delivers 2 + (8 - N) µL into reaction well `i` (N its
   * number of parts), and nothing into any well beyond the last combination.
   */
  lemma PreFillVolume(combos: seq<Combination>, i: nat)
    ensures VolumeInto(PreFillOps(combos), ReactionWell(i)) ==
              if i < |combos| then 2 + (8 - |combos[i].parts|) else 0
  {
    ConsolidationsVolume(combos, i);
    TipBracketVolume(P10Single, Consolidations(combos), ReactionWell(i));
  }

  // ---------------------------------------------------------------- batches

  /** `combination_wells` split as the `while` loop reslices it: runs of 10, then the rest. */
  function Batches(wells: seq<nat>): seq<seq<nat>>
    decreases |wells|
  {
    if |wells| > MAX_BATCH then [wells[..MAX_BATCH]] + Batches(wells[MAX_BATCH..])
    else if wells == [] then []
    else [wells]
  }

  /**
   * The batches join back into the original list; there are ceil(k/10) of
   * them, each holds 1 to 10 wells, and all but the last hold exactly 10.
   */
  lemma {:induction false} BatchesSpec(wells: seq<nat>)
    decreases |wells|
    ensures Flatten(Batches(wells)) == wells
    ensures |Batches(wells)| == (|wells| + 9) / 10
    ensures forall b :: 0 <= b < |Batches(wells)| ==> 1 <= |Batches(wells)[b]| <= MAX_BATCH
    ensures forall b :: 0 <= b < |Batches(wells)| - 1 ==> |Batches(wells)[b]| == MAX_BATCH
  {
    if |wells| > MAX_BATCH {
      var rest := wells[MAX_BATCH..];
      BatchesSpec(rest);
      var bs := Batches(wells);
      assert bs[1..] == Batches(rest);
      assert Flatten(bs) == wells[..MAX_BATCH] + Flatten(Batches(rest));
      assert wells == wells[..MAX_BATCH] + rest;
    }
  }

  /** One 1 µL dispense into each well, in order. */
  function Dispenses(ws: seq<nat>): (r: seq<Op>)
    ensures |r| == |ws|
  {
    if ws == [] then [] else Dispenses(ws[..|ws| - 1]) + [Dispense(P10Single, 1, ReactionWell(ws[|ws| - 1]))]
  }

  /** The rinse that lets one tip serve the next batch: mix twice with 10 µL of water, then blow out. */
  const RINSE := [Mix(P10Single, 2, 10, WATER), BlowOut(P10Single)]

  /** One batch: one aspiration of 1 µL per well, the dispenses, and a rinse when another batch follows. */
  function BatchBlock(src: Loc, b: seq<nat>, more: bool): seq<Op> {
    [Aspirate(P10Single, |b|, src)] + Dispenses(b) + (if more then RINSE else [])
  }

  function BatchOps(src: Loc, bs: seq<seq<nat>>): seq<Op> {
    if bs == [] then [] else BatchBlock(src, bs[0], |bs| > 1) + BatchOps(src, bs[1..])
  }

  /** Everything one part's fan-out emits: one tip pick-up, the batches, one drop. */
  function PartTransferOps(src: Loc, wells: seq<nat>): seq<Op> {
    [PickUpTip(P10Single)] + BatchOps(src, Batches(wells)) + [DropTip(P10Single)]
  }

  /** One pass of the `while` loop peels the first batch off. */
  lemma BatchOpsStep(src: Loc, remaining: seq<nat>, current: seq<nat>, rest: seq<nat>)
    requires remaining != []
    requires |remaining| > MAX_BATCH ==> current == remaining[..MAX_BATCH] && rest == remaining[MAX_BATCH..]
    requires |remaining| <= MAX_BATCH ==> current == remaining && rest == []
    ensures BatchOps(src, Batches(remaining)) == BatchBlock(src, current, rest != []) + BatchOps(src, Batches(rest))
  {
    var bs := Batches(remaining);
    assert bs == [current] + Batches(rest);
    assert bs[1..] == Batches(rest);
    assert Batches(rest) == [] <==> rest == [];
  }

  /**
   * The part-transfer loop: reslice the wells into batches of at most 10,
   * aspirate once per batch, dispense 1 µL per well, rinse while wells remain.
   */
  method TransferPart(src: Loc, wells: seq<nat>) returns (ops: seq<Op>)
    ensures ops == PartTransferOps(src, wells)
  {
    ops := [PickUpTip(P10Single)];
    var remaining := wells;
    while remaining != []
      invariant [PickUpTip(P10Single)] + BatchOps(src, Batches(wells)) == ops + BatchOps(src, Batches(remaining))
      decreases |remaining|
    {
      ghost var before, all := ops, remaining;
      var current;
      if |remaining| > MAX_BATCH {
        current := remaining[0..MAX_BATCH];
        remaining := remaining[MAX_BATCH..];
      } else {
        current := remaining;
        remaining := [];
      }
      BatchOpsStep(src, all, current, remaining);
      var block := TransferBatch(src, current, remaining != []);
      ops := ops + block;
      AppendAssoc(before, block, BatchOps(src, Batches(remaining)));
    }
    ops := ops + [DropTip(P10Single)];
  }

  /** One batch of the loop body: aspirate 1 µL per well, dispense into each, rinse if wells remain. */
  method TransferBatch(src: Loc, current: seq<nat>, more: bool) returns (block: seq<Op>)
    ensures block == BatchBlock(src, current, more)
  {
    block := [Aspirate(P10Single, 1 * |current|, src)];
    for t := 0 to |current|
      invariant block == [Aspirate(P10Single, |current|, src)] + Dispenses(current[..t])
    {
      DispensesSnoc(current, t);
      block := block + [Dispense(P10Single, 1, ReactionWell(current[t]))];
    }
    assert current[..|current|] == current;
    if more {
      block := block + [Mix(P10Single, 2, 10, WATER), BlowOut(P10Single)];
    }
  }

  lemma DispensesSnoc(ws: seq<nat>, t: nat)
    requires t < |ws|
    ensures Dispenses(ws[..t + 1]) == Dispenses(ws[..t]) + [Dispense(P10Single, 1, ReactionWell(ws[t]))]
  {
    assert ws[..t + 1][..t] == ws[..t];
  }

  lemma AppendAssoc(a: seq<Op>, b: seq<Op>, c: seq<Op>)
    ensures (a + b) + c == a + (b + c)
  {
  }

  /** The batch sizes, in order. */
  function Sizes(bs: seq<seq<nat>>): (r: seq<int>)
    ensures |r| == |bs| && forall b :: 0 <= b < |bs| ==> r[b] == |bs[b]|
  {
    seq(|bs|, b requires 0 <= b < |bs| => |bs[b]|)
  }

  lemma SizesCons(bs: seq<seq<nat>>)
    requires bs != []
    ensures Sizes(bs) == [|bs[0]|] + Sizes(bs[1..])
  {
    assert forall b :: 1 <= b < |bs| ==> bs[b] == bs[1..][b - 1];
  }

  /** The reaction wells, in order. */
  function ReactionWells(ws: seq<nat>): (r: seq<Loc>)
    ensures |r| == |ws| && forall t :: 0 <= t < |ws| ==> r[t] == ReactionWell(ws[t])
  {
    if ws == [] then [] else ReactionWells(ws[..|ws| - 1]) + [ReactionWell(ws[|ws| - 1])]
  }

  /** The 1 µL a well receives from each of its entries. */
  function WellVolume(ws: seq<nat>, loc: Loc): int {
    if loc.ReactionWell? then multiset(ws)[loc.index] else 0
  }

  /** The dispenses target the given wells, in order. */
  lemma {:induction false} DispensesTargets(ws: seq<nat>)
    ensures DispenseTargets(Dispenses(ws)) == ReactionWells(ws)
  {
    if ws != [] {
      var init := ws[..|ws| - 1];
      var op := Dispense(P10Single, 1, ReactionWell(ws[|ws| - 1]));
      DispensesTargets(init);
      SingleOp(op);
      DispenseTargetsConcat(Dispenses(init), [op]);
    }
  }

  /** Dispenses neither aspirate nor pause. */
  lemma {:induction false} DispensesQuiet(ws: seq<nat>)
    ensures AspirateVolumes(Dispenses(ws)) == [] && Pauses(Dispenses(ws)) == []
  {
    if ws != [] {
      var init := ws[..|ws| - 1];
      var op := Dispense(P10Single, 1, ReactionWell(ws[|ws| - 1]));
      DispensesQuiet(init);
      SingleOp(op);
      AspirateVolumesConcat(Dispenses(init), [op]);
      PausesConcat(Dispenses(init), [op]);
    }
  }

  /** Only dispenses, one per well. */
  lemma {:induction false} DispensesCount(ws: seq<nat>, k: OpKind)
    ensures CountKind(Dispenses(ws), k) == if k == DispenseKind then |ws| else 0
  {
    if ws != [] {
      var init := ws[..|ws| - 1];
      var op := Dispense(P10Single, 1, ReactionWell(ws[|ws| - 1]));
      DispensesCount(init, k);
      SingleOp(op);
      CountConcat(Dispenses(init), [op], k);
    }
  }

  /** Each well gets 1 µL per entry. */
  lemma {:induction false} DispensesVolume(ws: seq<nat>, loc: Loc)
    ensures VolumeInto(Dispenses(ws), loc) == WellVolume(ws, loc)
  {
    if ws != [] {
      var init := ws[..|ws| - 1];
      var op := Dispense(P10Single, 1, ReactionWell(ws[|ws| - 1]));
      DispensesVolume(init, loc);
      SingleVolume(op, loc);
      VolumeConcat(Dispenses(init), [op], loc);
      assert ws == init + [ws[|ws| - 1]];
    }
  }

  /** The rinse is one mix and one blow-out and delivers nothing. */
  lemma RinseCount(k: OpKind)
    ensures CountKind(RINSE, k) == if k == MixKind || k == BlowOutKind then 1 else 0
  {
    assert RINSE[1..] == [RINSE[1]];
    assert RINSE[1..][1..] == [];
  }

  lemma RinseVolume(loc: Loc)
    ensures VolumeInto(RINSE, loc) == 0
  {
    var m, b := RINSE[0], RINSE[1];
    assert RINSE == [m] + [b];
    SingleVolume(m, loc);
    SingleVolume(b, loc);
    VolumeConcat([m], [b], loc);
  }

  lemma RinseLists()
    ensures DispenseTargets(RINSE) == [] && AspirateVolumes(RINSE) == [] && Pauses(RINSE) == []
  {
    MeasureLengths(RINSE);
    RinseCount(PauseKind);
    RinseCount(DispenseKind);
    RinseCount(AspirateKind);
  }

  /** One batch aspirates its size once, dispenses into its wells in order, and never pauses. */
  lemma BatchBlockAspirations(src: Loc, b: seq<nat>, more: bool)
    ensures AspirateVolumes(BatchBlock(src, b, more)) == [|b|]
  {
    DispensesQuiet(b);
    RinseLists();
    LeadAspirate(P10Single, |b|, src, Dispenses(b), if more then RINSE else []);
  }

  lemma BatchBlockTargets(src: Loc, b: seq<nat>, more: bool)
    ensures DispenseTargets(BatchBlock(src, b, more)) == ReactionWells(b)
  {
    DispensesTargets(b);
    RinseLists();
    LeadAspirateTargets(P10Single, |b|, src, Dispenses(b), if more then RINSE else []);
  }

  lemma BatchBlockPauses(src: Loc, b: seq<nat>, more: bool)
    ensures Pauses(BatchBlock(src, b, more)) == []
  {
    DispensesQuiet(b);
    RinseLists();
    LeadAspiratePauses(P10Single, |b|, src, Dispenses(b), if more then RINSE else []);
  }

  lemma BatchBlockCount(src: Loc, b: seq<nat>, more: bool, k: OpKind)
    ensures CountKind(BatchBlock(src, b, more), k) ==
              if k == AspirateKind then 1
              else if k == DispenseKind then |b|
              else if k == MixKind || k == BlowOutKind then (if more then 1 else 0)
              else 0
  {
    DispensesCount(b, k);
    RinseCount(k);
    CountLead(Aspirate(P10Single, |b|, src), Dispenses(b), if more then RINSE else [], k);
  }

  lemma BatchBlockVolume(src: Loc, b: seq<nat>, more: bool, loc: Loc)
    ensures VolumeInto(BatchBlock(src, b, more), loc) == WellVolume(b, loc)
  {
    var asp := Aspirate(P10Single, |b|, src);
    var d := Dispenses(b);
    var rinse := if more then RINSE else [];
    DispensesVolume(b, loc);
    RinseVolume(loc);
    SingleVolume(asp, loc);
    VolumeConcat([asp], d, loc);
    VolumeConcat([asp] + d, rinse, loc);
  }

  /** The batches aspirate their sizes in order and dispense into the flattened wells in order. */
  lemma {:induction false} BatchOpsAspirations(src: Loc, bs: seq<seq<nat>>)
    ensures AspirateVolumes(BatchOps(src, bs)) == Sizes(bs)
  {
    if bs != [] {
      var block := BatchBlock(src, bs[0], |bs| > 1);
      var rest := BatchOps(src, bs[1..]);
      BatchOpsAspirations(src, bs[1..]);
      BatchBlockAspirations(src, bs[0], |bs| > 1);
      AspirateVolumesConcat(block, rest);
      SizesCons(bs);
    }
  }

  lemma {:induction false} BatchOpsTargets(src: Loc, bs: seq<seq<nat>>)
    ensures DispenseTargets(BatchOps(src, bs)) == ReactionWells(Flatten(bs))
  {
    if bs != [] {
      var block := BatchBlock(src, bs[0], |bs| > 1);
      var rest := BatchOps(src, bs[1..]);
      BatchOpsTargets(src, bs[1..]);
      BatchBlockTargets(src, bs[0], |bs| > 1);
      DispenseTargetsConcat(block, rest);
      ReactionWellsConcat(bs[0], Flatten(bs[1..]));
    }
  }

  lemma {:induction false} ReactionWellsConcat(a: seq<nat>, b: seq<nat>)
    ensures ReactionWells(a + b) == ReactionWells(a) + ReactionWells(b)
  {
    if b != [] {
      assert (a + b)[..|a + b| - 1] == a + b[..|b| - 1];
      ReactionWellsConcat(a, b[..|b| - 1]);
    } else {
      assert a + b == a;
    }
  }

  lemma {:induction false} BatchOpsPauses(src: Loc, bs: seq<seq<nat>>)
    ensures Pauses(BatchOps(src, bs)) == []
  {
    if bs != [] {
      var block := BatchBlock(src, bs[0], |bs| > 1);
      var rest := BatchOps(src, bs[1..]);
      BatchOpsPauses(src, bs[1..]);
      BatchBlockPauses(src, bs[0], |bs| > 1);
      PausesConcat(block, rest);
    }
  }

  /** One aspiration per batch, one dispense per well, one rinse between consecutive batches. */
  lemma {:induction false} BatchOpsCount(src: Loc, bs: seq<seq<nat>>, k: OpKind)
    ensures CountKind(BatchOps(src, bs), k) ==
              if k == AspirateKind then |bs|
              else if k == DispenseKind then |Flatten(bs)|
              else if k == MixKind || k == BlowOutKind then (if bs == [] then 0 else |bs| - 1)
              else 0
  {
    if bs != [] {
      var block := BatchBlock(src, bs[0], |bs| > 1);
      var rest := BatchOps(src, bs[1..]);
      BatchOpsCount(src, bs[1..], k);
      BatchBlockCount(src, bs[0], |bs| > 1, k);
      CountConcat(block, rest, k);
    }
  }

  lemma {:induction false} BatchOpsVolume(src: Loc, bs: seq<seq<nat>>, loc: Loc)
    ensures VolumeInto(BatchOps(src, bs), loc) == WellVolume(Flatten(bs), loc)
  {
    if bs != [] {
      var block := BatchBlock(src, bs[0], |bs| > 1);
      var rest := BatchOps(src, bs[1..]);
      BatchOpsVolume(src, bs[1..], loc);
      BatchBlockVolume(src, bs[0], |bs| > 1, loc);
      VolumeConcat(block, rest, loc);
      assert multiset(Flatten(bs)) == multiset(bs[0]) + multiset(Flatten(bs[1..]));
    }
  }

  /** The last operation of non-empty batch operations is a dispense: there is no rinse after the last batch. */
  lemma {:induction false} BatchOpsEndsWithDispense(src: Loc, bs: seq<seq<nat>>)
    requires bs != [] && forall b :: 0 <= b < |bs| ==> bs[b] != []
    ensures BatchOps(src, bs)[|BatchOps(src, bs)| - 1].Dispense?
  {
    if |bs| == 1 {
      var b := bs[0];
      assert Dispenses(b)[|b| - 1].Dispense?;
      assert BatchOps(src, bs) == [Aspirate(P10Single, |b|, src)] + Dispenses(b);
    } else {
      BatchOpsEndsWithDispense(src, bs[1..]);
    }
  }

  /**
   * One part's fan-out to `k` wells, in order: the 1 µL dispenses go to the
   * wells in list order, the aspirations are the batch sizes (each 1 to 10 µL),
   * and nothing pauses.
   */
  lemma PartTransferAspirations(src: Loc, wells: seq<nat>)
    ensures AspirateVolumes(PartTransferOps(src, wells)) == Sizes(Batches(wells))
    ensures forall v :: v in AspirateVolumes(PartTransferOps(src, wells)) ==> 1 <= v <= MAX_BATCH
  {
    var bs := Batches(wells);
    BatchesSpec(wells);
    BatchOpsAspirations(src, bs);
    TipBracket(P10Single, BatchOps(src, bs));
    forall v | v in Sizes(bs) ensures 1 <= v <= MAX_BATCH {
      var b :| 0 <= b < |bs| && Sizes(bs)[b] == v;
    }
  }

  lemma PartTransferTargets(src: Loc, wells: seq<nat>)
    ensures DispenseTargets(PartTransferOps(src, wells)) == ReactionWells(wells)
  {
    var bs := Batches(wells);
    BatchesSpec(wells);
    BatchOpsTargets(src, bs);
    TipBracket(P10Single, BatchOps(src, bs));
  }

  lemma PartTransferPauses(src: Loc, wells: seq<nat>)
    ensures Pauses(PartTransferOps(src, wells)) == []
  {
    BatchOpsPauses(src, Batches(wells));
    TipBracket(P10Single, BatchOps(src, Batches(wells)));
  }

  /**
   * One part's fan-out to `k` wells, counted: one tip, ceil(k/10)
   * aspirations, k dispenses, and a mix and blow-out rinse between
   * batches only.
   */
  lemma PartTransferCount(src: Loc, wells: seq<nat>, k: OpKind)
    ensures CountKind(PartTransferOps(src, wells), k) ==
              if k == PickUpKind || k == DropKind then 1
              else if k == AspirateKind then (|wells| + 9) / 10
              else if k == DispenseKind then |wells|
              else if k == MixKind || k == BlowOutKind then (if wells == [] then 0 else (|wells| + 9) / 10 - 1)
              else 0
  {
    var bs := Batches(wells);
    BatchesSpec(wells);
    BatchOpsCount(src, bs, k);
    CountBracket(PickUpTip(P10Single), BatchOps(src, bs), DropTip(P10Single), k);
  }

  /** Each reaction well receives 1 µL of the part per time it is listed. */
  lemma PartTransferVolume(src: Loc, wells: seq<nat>, loc: Loc)
    ensures VolumeInto(PartTransferOps(src, wells), loc) == WellVolume(wells, loc)
  {
    var bs := Batches(wells);
    BatchesSpec(wells);
    BatchOpsVolume(src, bs, loc);
    TipBracketVolume(P10Single, BatchOps(src, bs), loc);
  }

  /** The tip is picked up first and dropped last, right after a dispense when there are wells. */
  lemma PartTransferShape(src: Loc, wells: seq<nat>)
    ensures PartTransferOps(src, wells)[0] == PickUpTip(P10Single)
    ensures PartTransferOps(src, wells)[|PartTransferOps(src, wells)| - 1] == DropTip(P10Single)
    ensures wells != [] ==> PartTransferOps(src, wells)[|PartTransferOps(src, wells)| - 2].Dispense?
  {
    if wells != [] {
      var bs := Batches(wells);
      BatchesSpec(wells);
      BatchOpsEndsWithDispense(src, bs);
    }
  }

  /** Eleven wells: batches of 10 and 1, one rinse, one tip. */
  lemma ElevenWellsExample(src: Loc)
    ensures Batches([0, 1, 2, 3, 4, 5, 6, 7, 8, 9, 10]) == [[0, 1, 2, 3, 4, 5, 6, 7, 8, 9], [10]]
    ensures AspirateVolumes(PartTransferOps(src, [0, 1, 2, 3, 4, 5, 6, 7, 8, 9, 10])) == [10, 1]
    ensures CountKind(PartTransferOps(src, [0, 1, 2, 3, 4, 5, 6, 7, 8, 9, 10]), MixKind) == 1
  {
    var ws := [0, 1, 2, 3, 4, 5, 6, 7, 8, 9, 10];
    assert ws[..MAX_BATCH] == [0, 1, 2, 3, 4, 5, 6, 7, 8, 9];
    assert ws[MAX_BATCH..] == [10];
    assert Batches(ws) == [ws[..MAX_BATCH], [10]];
    PartTransferAspirations(src, ws);
    PartTransferCount(src, ws, MixKind);
    assert Sizes(Batches(ws)) == [10, 1];
  }

  // ---------------------------------------------------------------- fan-out

  /** `[find_combination(x, combinations_to_make) for x in combinations]`. */
  function CombinationWells(names: seq<string>, combos: seq<Combination>): (r: Result<seq<nat>, LookupError>)
    ensures r.Ok? ==> |r.value| == |names|
    ensures r.Ok? ==> forall t :: 0 <= t < |names| ==> FindCombination(names[t], combos) == Ok(r.value[t])
    ensures r.Ok? <==> forall t :: 0 <= t < |names| ==> FindCombination(names[t], combos).Ok?
  {
    if names == [] then Ok([])
    else match FindCombination(names[0], combos)
      case Err(e) => Err(e)
      case Ok(w) =>
        match CombinationWells(names[1..], combos)
        case Err(e) => Err(e)
        case Ok(ws) => Ok([w] + ws)
  }

  /** What a sequence of steps emitted, and the error that stopped it, if any. */
  datatype Emission = Emission(ops: seq<Op>, failure: Option<LookupError>)

  /**
   * The part loop: for each item of `combinations_by_part`, resolve the part's
   * well and its combination wells (raising on the first failure, after what
   * earlier parts emitted), then transfer.
   */
  function FanOut(items: seq<PartUse>, plates: seq<Plate>, combos: seq<Combination>): Emission {
    if items == [] then Emission([], None)
    else match FindDna(items[0].part, plates)
      case Err(e) => Emission([], Some(e))
      case Ok(src) =>
        match CombinationWells(items[0].combinations, combos)
        case Err(e) => Emission([], Some(e))
        case Ok(ws) =>
          var rest := FanOut(items[1..], plates, combos);
          Emission(PartTransferOps(src, ws) + rest.ops, rest.failure)
  }

  /** The items of the ordered dictionary held as its key order and its map. */
  function Items(keys: seq<string>, uses: map<string, seq<string>>): (r: seq<PartUse>)
    requires forall p :: p in keys ==> p in uses
    ensures |r| == |keys| && forall k :: 0 <= k < |keys| ==> r[k] == PartUse(keys[k], uses[keys[k]])
  {
    seq(|keys|, k requires 0 <= k < |keys| => PartUse(keys[k], uses[keys[k]]))
  }

  /** The part loop's view of item `k`: stop on its first failed lookup, or transfer it and go on. */
  lemma FanOutAt(items: seq<PartUse>, k: nat, plates: seq<Plate>, combos: seq<Combination>)
    requires k < |items|
    ensures var f, rest := FanOut(items[k..], plates, combos), FanOut(items[k + 1..], plates, combos);
            var src, ws := FindDna(items[k].part, plates), CombinationWells(items[k].combinations, combos);
            && (src.Err? ==> f == Emission([], Some(src.error)))
            && (src.Ok? && ws.Err? ==> f == Emission([], Some(ws.error)))
            && (src.Ok? && ws.Ok? ==> f == Emission(PartTransferOps(src.value, ws.value) + rest.ops, rest.failure))
  {
    assert items[k..][1..] == items[k + 1..];
    assert items[k..][0] == items[k];
  }

  /** The part loop over `combinations_by_part`. */
  method CombineParts(keys: seq<string>, uses: map<string, seq<string>>, plates: seq<Plate>, combos: seq<Combination>)
    returns (ops: seq<Op>, failure: Option<LookupError>)
    requires forall p :: p in keys ==> p in uses
    ensures Emission(ops, failure) == FanOut(Items(keys, uses), plates, combos)
  {
    ops, failure := [], None;
    var k := 0;
    ghost var items := Items(keys, uses);
    while k < |keys|
      invariant k <= |keys|
      invariant FanOut(items, plates, combos) == Emission(ops + FanOut(items[k..], plates, combos).ops,
                                                         FanOut(items[k..], plates, combos).failure)
    {
      FanOutAt(items, k, plates, combos);
      var part := keys[k];
      var partWell := FindDna(part, plates);
      if partWell.Err? {
        failure := Some(partWell.error);
        return;
      }
      var wells := CombinationWells(uses[part], combos);
      if wells.Err? {
        failure := Some(wells.error);
        return;
      }
      var partOps := TransferPart(partWell.value, wells.value);
      AppendAssoc(ops, partOps, FanOut(items[k + 1..], plates, combos).ops);
      ops := ops + partOps;
      k := k + 1;
    }
    assert items[k..] == [];
  }

  /** Every name the dictionary lists is the name of a combination, so find_combination cannot fail there. */
  lemma {:induction false} NamesAreCombinations(occ: seq<Occurrence>, combos: seq<Combination>, part: string)
    requires forall x :: x in NamesOf(occ) ==> exists i :: 0 <= i < |combos| && combos[i].name == x
    ensures CombinationWells(NamesFor(occ, part), combos).Ok?
  {
    var ns := NamesFor(occ, part);
    forall t | 0 <= t < |ns| ensures FindCombination(ns[t], combos).Ok? {
      NamesForIn(occ, part, ns[t]);
      var i :| 0 <= i < |combos| && combos[i].name == ns[t];
    }
  }

  lemma {:induction false} NamesForIn(occ: seq<Occurrence>, part: string, x: string)
    requires x in NamesFor(occ, part)
    ensures x in NamesOf(occ)
  {
    var init := occ[..|occ| - 1];
    if x in NamesFor(init, part) {
      NamesForIn(init, part, x);
      assert NamesOf(init) == NamesOf(occ)[..|occ| - 1];
    } else {
      assert x == occ[|occ| - 1].combination;
      assert NamesOf(occ)[|occ| - 1] == x;
    }
  }

  lemma {:induction false} NamesOfOccurrences(combos: seq<Combination>, x: string)
    requires x in NamesOf(Occurrences(combos))
    ensures exists i :: 0 <= i < |combos| && combos[i].name == x
  {
    var init, last := combos[..|combos| - 1], combos[|combos| - 1];
    var a, b := Occurrences(init), OccurrencesOf(last);
    assert NamesOf(a + b) == NamesOf(a) + NamesOf(b);
    if x in NamesOf(a) {
      NamesOfOccurrences(init, x);
      var i :| 0 <= i < |init| && init[i].name == x;
      assert combos[i] == init[i];
    } else {
      assert combos[|combos| - 1].name == x;
    }
  }

  /**
   * Over `combinations_by_part` the only errors come from find_dna: when the
   * fan-out stops, the error is find_dna's answer for some part, and every
   * operation emitted belongs to the parts before it.
   */
  lemma {:induction false} FanOutStops(items: seq<PartUse>, plates: seq<Plate>, combos: seq<Combination>, f: nat)
    requires f < |items|
    requires forall k :: 0 <= k < |items| ==> CombinationWells(items[k].combinations, combos).Ok?
    requires forall k :: 0 <= k < f ==> FindDna(items[k].part, plates).Ok?
    requires FindDna(items[f].part, plates).Err?
    ensures FanOut(items, plates, combos) ==
              Emission(FanOut(items[..f], plates, combos).ops, Some(FindDna(items[f].part, plates).error))
    ensures FanOut(items[..f], plates, combos).failure == None
  {
    if f > 0 {
      assert items[1..][..f - 1] == items[..f][1..];
      FanOutStops(items[1..], plates, combos, f - 1);
    }
  }

  /** The fan-out completes exactly when every part is found on a recognised plate in range. */
  lemma {:induction false} FanOutCompletes(items: seq<PartUse>, plates: seq<Plate>, combos: seq<Combination>)
    requires forall k :: 0 <= k < |items| ==> CombinationWells(items[k].combinations, combos).Ok?
    ensures FanOut(items, plates, combos).failure == None <==>
              forall k :: 0 <= k < |items| ==> FindDna(items[k].part, plates).Ok?
  {
    if items != [] {
      var rest := items[1..];
      FanOutCompletes(rest, plates, combos);
      FanOutAt(items, 0, plates, combos);
      assert items[0..] == items;
      if forall k :: 0 <= k < |rest| ==> FindDna(rest[k].part, plates).Ok? {
        forall k | 1 <= k < |items| ensures FindDna(items[k].part, plates).Ok? {
          assert items[k] == rest[k - 1];
        }
      }
    }
  }

  /** A completed fan-out takes one tip per part and never pauses. */
  lemma {:induction false} FanOutTips(items: seq<PartUse>, plates: seq<Plate>, combos: seq<Combination>)
    ensures CountKind(FanOut(items, plates, combos).ops, PickUpKind) <= |items|
    ensures FanOut(items, plates, combos).failure == None ==>
              CountKind(FanOut(items, plates, combos).ops, PickUpKind) == |items|
              && CountKind(FanOut(items, plates, combos).ops, DropKind) == |items|
    ensures Pauses(FanOut(items, plates, combos).ops) == []
  {
    if items != [] {
      match FindDna(items[0].part, plates)
      case Err(_) =>
      case Ok(src) =>
        match CombinationWells(items[0].combinations, combos)
        case Err(_) =>
        case Ok(ws) =>
          var head := PartTransferOps(src, ws);
          var rest := FanOut(items[1..], plates, combos);
          FanOutTips(items[1..], plates, combos);
          PartTransferCount(src, ws, PickUpKind);
          PartTransferCount(src, ws, DropKind);
          PartTransferPauses(src, ws);
          CountConcat(head, rest.ops, PickUpKind);
          CountConcat(head, rest.ops, DropKind);
          PausesConcat(head, rest.ops);
    }
  }

  /** A completed fan-out delivers into reaction well `i` one µL per time the items list combination `i`. */
  lemma {:induction false} FanOutVolume(items: seq<PartUse>, plates: seq<Plate>, combos: seq<Combination>, i: nat)
    requires FanOut(items, plates, combos).failure == None
    requires DistinctNames(combos) && i < |combos|
    ensures VolumeInto(FanOut(items, plates, combos).ops, ReactionWell(i)) == multiset(AllUses(items))[combos[i].name]
  {
    if items != [] {
      var src := FindDna(items[0].part, plates).value;
      var ws: seq<nat> := CombinationWells(items[0].combinations, combos).value;
      var head := PartTransferOps(src, ws);
      var rest := FanOut(items[1..], plates, combos);
      FanOutVolume(items[1..], plates, combos, i);
      PartTransferVolume(src, ws, ReactionWell(i));
      VolumeConcat(head, rest.ops, ReactionWell(i));
      WellsCount(items[0].combinations, combos, i);
      assert multiset(AllUses(items)) == multiset(items[0].combinations) + multiset(AllUses(items[1..]));
    }
  }

  /** With distinct names, well `i` occurs in the resolved wells as often as combination `i`'s name in the list. */
  lemma {:induction false} WellsCount(names: seq<string>, combos: seq<Combination>, i: nat)
    requires CombinationWells(names, combos).Ok?
    requires DistinctNames(combos) && i < |combos|
    ensures multiset(CombinationWells(names, combos).value)[i] == multiset(names)[combos[i].name]
  {
    if names != [] {
      var w := FindCombination(names[0], combos).value;
      var rest := CombinationWells(names[1..], combos).value;
      var single: seq<nat> := [w];
      assert CombinationWells(names, combos).value == single + rest;
      WellsCount(names[1..], combos, i);
      FindCombinationDistinct(combos, i);
      assert w == i <==> names[0] == combos[i].name;
      assert names == [names[0]] + names[1..];
      assert multiset(single + rest) == multiset(single) + multiset(rest);
      assert multiset(names) == multiset([names[0]]) + multiset(names[1..]);
    }
  }

  /** With distinct names, combination `i`'s name appears once per part entry of combination `i`. */
  lemma {:induction false} NameCountInOccurrences(combos: seq<Combination>, i: nat)
    requires DistinctNames(combos) && i < |combos|
    ensures multiset(NamesOf(Occurrences(combos)))[combos[i].name] == |combos[i].parts|
  {
    var n := |combos|;
    var init, last := combos[..n - 1], combos[n - 1];
    var a, b := Occurrences(init), OccurrencesOf(last);
    assert NamesOf(a + b) == NamesOf(a) + NamesOf(b);
    assert DistinctNames(init);
    var x := combos[i].name;
    assert NamesOf(b) == seq(|last.parts|, _ => last.name);
    ConstantCount(last.name, |last.parts|, x);
    if i < n - 1 {
      NameCountInOccurrences(init, i);
      assert combos[i] == init[i];
    } else {
      forall j | 0 <= j < |init| ensures init[j].name != x {
        assert combos[j] == init[j];
      }
      NamesOfOccurrencesAbsent(init, x);
    }
  }

  lemma {:induction false} NamesOfOccurrencesAbsent(combos: seq<Combination>, x: string)
    requires forall i :: 0 <= i < |combos| ==> combos[i].name != x
    ensures x !in NamesOf(Occurrences(combos))
  {
    if combos != [] {
      var init, last := combos[..|combos| - 1], combos[|combos| - 1];
      var a, b := Occurrences(init), OccurrencesOf(last);
      assert NamesOf(a + b) == NamesOf(a) + NamesOf(b);
      assert forall i :: 0 <= i < |init| ==> init[i] == combos[i];
      NamesOfOccurrencesAbsent(init, x);
      assert NamesOf(b) == seq(|last.parts|, _ => last.name);
    }
  }

  lemma {:induction false} ConstantCount(y: string, m: nat, x: string)
    ensures multiset(seq(m, _ => y))[x] == if x == y then m else 0
  {
    if m > 0 {
      assert seq(m, _ => y) == seq(m - 1, _ => y) + [y];
      ConstantCount(y, m - 1, x);
    }
  }

  /**
   * Every reaction well ends with 10 µL: 2 µL of buffer mix, 8 - N µL of
   * water and 1 µL of each of its N part entries, provided combination names
   * are distinct and the fan-out completes.
   */
  lemma ReactionVolumes(plates: seq<Plate>, combos: seq<Combination>, i: nat)
    requires DistinctNames(combos) && i < |combos|
    requires FanOut(ByPart(combos), plates, combos).failure == None
    ensures VolumeInto(PreFillOps(combos) + FanOut(ByPart(combos), plates, combos).ops, ReactionWell(i)) == 10
  {
    var fan := FanOut(ByPart(combos), plates, combos);
    PreFillVolume(combos, i);
    FanOutVolume(ByPart(combos), plates, combos, i);
    ByPartSpec(combos);
    NameCountInOccurrences(combos, i);
    VolumeConcat(PreFillOps(combos), fan.ops, ReactionWell(i));
  }

  /** `combinations_by_part` only ever lists combination names, so its fan-out never raises find_combination's error. */
  lemma ByPartWellsResolve(combos: seq<Combination>)
    ensures forall k :: 0 <= k < |ByPart(combos)| ==> CombinationWells(ByPart(combos)[k].combinations, combos).Ok?
  {
    var occ := Occurrences(combos);
    forall x | x in NamesOf(occ) ensures exists i :: 0 <= i < |combos| && combos[i].name == x {
      NamesOfOccurrences(combos, x);
    }
    forall k | 0 <= k < |ByPart(combos)| ensures CombinationWells(ByPart(combos)[k].combinations, combos).Ok? {
      NamesAreCombinations(occ, combos, ByPart(combos)[k].part);
    }
  }

  /** The fan-out over the dictionary completes exactly when every part used is found. */
  lemma ByPartFanOutCompletes(plates: seq<Plate>, combos: seq<Combination>)
    ensures FanOut(ByPart(combos), plates, combos).failure == None <==>
              forall p :: p in PartsOf(Occurrences(combos)) ==> FindDna(p, plates).Ok?
  {
    var items, parts := ByPart(combos), PartsOf(Occurrences(combos));
    ByPartWellsResolve(combos);
    FanOutCompletes(items, plates, combos);
    KeysAreParts(combos);
    var ks := Keys(items);
    if forall k :: 0 <= k < |items| ==> FindDna(items[k].part, plates).Ok? {
      forall p | p in parts ensures FindDna(p, plates).Ok? {
        var k :| 0 <= k < |ks| && ks[k] == p;
        assert items[k].part == p;
      }
    }
    if forall p :: p in parts ==> FindDna(p, plates).Ok? {
      forall k | 0 <= k < |items| ensures FindDna(items[k].part, plates).Ok? {
        assert ks[k] in ks;
      }
    }
  }

  /** The dictionary's keys are exactly the parts used. */
  lemma KeysAreParts(combos: seq<Combination>)
    ensures forall p :: p in Keys(ByPart(combos)) <==> p in PartsOf(Occurrences(combos))
  {
    ByPartSpec(combos);
  }
}
