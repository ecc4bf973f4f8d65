/**
 * The rest of the protocol template: the thermocycler stages with their
 * operator pauses, the competent-cell addition, the plating pass with its
 * agar-plate rollover, and the whole run put together.
 */
module Stages {
  import opened Wrappers
  import opened Tables
  import opened RobotOps
  import opened PartLookup
  import opened PartAdjacency
  import opened Transfers

  // ---------------------------------------------------------------- constants

  const SEAL_FOR_ASSEMBLY := "Please seal the PCR plates and resume run to conduct GG program."
  const UNSEAL_FOR_HEAT_SHOCK := "Place remove the seal film of the PCR plates and resume run to conduct heat shock program."
  const RESEAL_FOR_HEAT_SHOCK := "Place seal the PCR paltes again and resume run to conduct HS program."
  const UNSEAL_FOR_PLATING := "Please remove the seal and resume for plating"
  const CHANGE_AGAR_PLATE := "Please change a new agar plates"

  /** The agar plate is a 12-well plate. */
  const AGAR_PLATE_WELLS := 12

  /** µL of competent cells per reaction. */
  const COMPETENT_CELL_VOLUME := 50

  /** Golden Gate cycling (37 °C for 5 min, 16 °C for 2 min), the final 60 °C digestion, and the heat shock. */
  const ASSEMBLY_CYCLE := [ThermalStep(37, 300), ThermalStep(16, 120)]
  const FINAL_DIGESTION := [ThermalStep(60, 300)]
  const HEAT_SHOCK := [ThermalStep(4, 600), ThermalStep(42, 90), ThermalStep(4, 120), ThermalStep(37, 3600)]

  /** The 13 spotting positions over an agar well, as (x, y) offsets in tenths of a millimetre. */
  const SPOT_OFFSETS: seq<(int, int)> :=
    [(0, 0), (0, 40), (40, 0), (0, -40), (-40, 0), (0, 80), (55, 55), (80, 0), (55, -55), (0, -80), (-55, -55), (-80, 0), (-55, 55)]

  // ---------------------------------------------------------------- fixed stages

  /** The thermocycler actions of each stage. */
  const SETUP_STEPS := [OpenLid, SetBlockTemperature(4)]
  const ASSEMBLY_STEPS := [CloseLid, SetLidTemperature(105), ExecuteProfile(ASSEMBLY_CYCLE, 25, 20),
                           ExecuteProfile(FINAL_DIGESTION, 1, 20), SetBlockTemperature(4), OpenLid]
  const HEAT_SHOCK_STEPS := [CloseLid, ExecuteProfile(HEAT_SHOCK, 1, 40), SetBlockTemperature(37), OpenLid]

  /** Open the lid and cool the block to 4 °C before anything is pipetted. */
  function Setup(): seq<Op> {
    Modules(SETUP_STEPS)
  }

  /** Seal, run the assembly program, and ask for the seal to come off. */
  function AssemblyProgram(): seq<Op> {
    [Pause(SEAL_FOR_ASSEMBLY)] + Modules(ASSEMBLY_STEPS) + [Pause(UNSEAL_FOR_HEAT_SHOCK)]
  }

  /** Switch the reagent block off, reseal, heat shock, and ask for the seal to come off for plating. */
  function HeatShockProgram(): seq<Op> {
    Modules([DeactivateTemperatureModule]) + [Pause(RESEAL_FOR_HEAT_SHOCK)]
    + Modules(HEAT_SHOCK_STEPS) + [Pause(UNSEAL_FOR_PLATING)]
  }

  function Finish(): seq<Op> {
    Modules([DeactivateThermocycler])
  }

  /** The operator is asked to seal before the assembly program and to unseal after it. */
  lemma AssemblyProgramPauses()
    ensures Pauses(AssemblyProgram()) == [SEAL_FOR_ASSEMBLY, UNSEAL_FOR_HEAT_SHOCK]
  {
    BracketedPauses(SEAL_FOR_ASSEMBLY, ASSEMBLY_STEPS, UNSEAL_FOR_HEAT_SHOCK);
  }

  /** The operator is asked to reseal before the heat shock and to unseal for plating after it. */
  lemma HeatShockProgramPauses()
    ensures Pauses(HeatShockProgram()) == [RESEAL_FOR_HEAT_SHOCK, UNSEAL_FOR_PLATING]
  {
    InterleavedPauses([DeactivateTemperatureModule], RESEAL_FOR_HEAT_SHOCK, HEAT_SHOCK_STEPS, UNSEAL_FOR_PLATING);
  }

  /** Module actions between two pauses leave exactly those two pauses. */
  lemma BracketedPauses(p: string, steps: seq<ModuleStep>, q: string)
    ensures Pauses([Pause(p)] + Modules(steps) + [Pause(q)]) == [p, q]
  {
    var m, sp, sq := Modules(steps), [Pause(p)], [Pause(q)];
    ModulesPauses(steps);
    SinglePause(p);
    SinglePause(q);
    var x := sp + m;
    PausesConcat(sp, m);
    assert Pauses(x) == [p];
    PausesConcat(x, sq);
  }

  /** Module actions, a pause, module actions and a pause leave exactly the two pauses. */
  lemma InterleavedPauses(s1: seq<ModuleStep>, p: string, s2: seq<ModuleStep>, q: string)
    ensures Pauses(Modules(s1) + [Pause(p)] + Modules(s2) + [Pause(q)]) == [p, q]
  {
    var m1, m2, sp, sq := Modules(s1), Modules(s2), [Pause(p)], [Pause(q)];
    ModulesPauses(s1);
    ModulesPauses(s2);
    SinglePause(p);
    SinglePause(q);
    var x := m1 + sp;
    PausesConcat(m1, sp);
    assert Pauses(x) == [p];
    var y := x + m2;
    PausesConcat(x, m2);
    assert Pauses(y) == [p];
    PausesConcat(y, sq);
  }

  /** None of the fixed stages moves liquid. */
  lemma FixedStageVolumes(loc: Loc)
    ensures VolumeInto(Setup(), loc) == 0 && VolumeInto(Finish(), loc) == 0
    ensures VolumeInto(AssemblyProgram(), loc) == 0 && VolumeInto(HeatShockProgram(), loc) == 0
  {
    var m1 := Modules(ASSEMBLY_STEPS);
    var m2 := Modules([DeactivateTemperatureModule]);
    var m3 := Modules(HEAT_SHOCK_STEPS);
    ModulesVolume(SETUP_STEPS, loc);
    ModulesVolume([DeactivateThermocycler], loc);
    ModulesVolume(ASSEMBLY_STEPS, loc);
    ModulesVolume([DeactivateTemperatureModule], loc);
    ModulesVolume(HEAT_SHOCK_STEPS, loc);
    SingleVolume(Pause(SEAL_FOR_ASSEMBLY), loc);
    SingleVolume(Pause(UNSEAL_FOR_HEAT_SHOCK), loc);
    SingleVolume(Pause(RESEAL_FOR_HEAT_SHOCK), loc);
    SingleVolume(Pause(UNSEAL_FOR_PLATING), loc);
    VolumeConcat([Pause(SEAL_FOR_ASSEMBLY)], m1, loc);
    VolumeConcat([Pause(SEAL_FOR_ASSEMBLY)] + m1, [Pause(UNSEAL_FOR_HEAT_SHOCK)], loc);
    VolumeConcat(m2, [Pause(RESEAL_FOR_HEAT_SHOCK)], loc);
    VolumeConcat(m2 + [Pause(RESEAL_FOR_HEAT_SHOCK)], m3, loc);
    VolumeConcat(m2 + [Pause(RESEAL_FOR_HEAT_SHOCK)] + m3, [Pause(UNSEAL_FOR_PLATING)], loc);
  }

  // ---------------------------------------------------------------- competent cells

  /** 50 µL of competent cells into reaction `i`, mixed once at 25 µL, with a fresh 300 µL tip. */
  function CompetentCellsStep(i: nat): seq<Op> {
    [PickUpTip(P300Single), Transfer(P300Single, COMPETENT_CELL_VOLUME, COMPETENT_CELLS, ReactionWell(i))]
    + [Mix(P300Single, 1, 25, ReactionWell(i)), BlowOut(P300Single), DropTip(P300Single)]
  }

  function CompetentCellsOps(n: nat): seq<Op> {
    if n == 0 then [] else CompetentCellsOps(n - 1) + CompetentCellsStep(n - 1)
  }

  /** The competent-cell loop over the reactions. */
  method AddCompetentCells(n: nat) returns (ops: seq<Op>)
    ensures ops == CompetentCellsOps(n)
  {
    ops := [];
    for i := 0 to n
      invariant ops == CompetentCellsOps(i)
    {
      ops := ops + [PickUpTip(P300Single)];
      ops := ops + [Transfer(P300Single, 50, COMPETENT_CELLS, ReactionWell(i))];
      ops := ops + [Mix(P300Single, 1, 25, ReactionWell(i))];
      ops := ops + [BlowOut(P300Single)];
      ops := ops + [DropTip(P300Single)];
    }
  }

  lemma CompetentCellsStepVolume(i: nat, loc: Loc)
    ensures VolumeInto(CompetentCellsStep(i), loc) == if loc == ReactionWell(i) then COMPETENT_CELL_VOLUME else 0
  {
    var t := Transfer(P300Single, COMPETENT_CELL_VOLUME, COMPETENT_CELLS, ReactionWell(i));
    var a := [PickUpTip(P300Single), t];
    var b := [Mix(P300Single, 1, 25, ReactionWell(i)), BlowOut(P300Single), DropTip(P300Single)];
    VolumeConcat(a, b, loc);
    VolumeCons(PickUpTip(P300Single), [t], loc);
    SingleVolume(t, loc);
    VolumeCons(b[0], b[1..], loc);
    VolumeCons(b[1], b[2..], loc);
    SingleVolume(b[2], loc);
  }

  lemma CompetentCellsStepCount(i: nat, k: OpKind)
    ensures CountKind(CompetentCellsStep(i), k) ==
              if k == PickUpKind || k == DropKind || k == TransferKind || k == MixKind || k == BlowOutKind then 1 else 0
  {
    var t := Transfer(P300Single, COMPETENT_CELL_VOLUME, COMPETENT_CELLS, ReactionWell(i));
    var m := Mix(P300Single, 1, 25, ReactionWell(i));
    assert CompetentCellsStep(i) == [PickUpTip(P300Single), t, m, BlowOut(P300Single), DropTip(P300Single)];
    CountFive(PickUpTip(P300Single), t, m, BlowOut(P300Single), DropTip(P300Single), k);
  }

  /** Every reaction receives 50 µL of competent cells, and no other well receives anything. */
  lemma {:induction false} CompetentCellsVolume(n: nat, loc: Loc)
    ensures VolumeInto(CompetentCellsOps(n), loc) ==
              if loc.ReactionWell? && loc.index < n then COMPETENT_CELL_VOLUME else 0
  {
    if n > 0 {
      CompetentCellsVolume(n - 1, loc);
      CompetentCellsStepVolume(n - 1, loc);
      VolumeConcat(CompetentCellsOps(n - 1), CompetentCellsStep(n - 1), loc);
    }
  }

  /** One 300 µL tip per reaction, never a pause. */
  lemma {:induction false} CompetentCellsCount(n: nat, k: OpKind)
    ensures CountKind(CompetentCellsOps(n), k) ==
              if k == PickUpKind || k == DropKind || k == TransferKind || k == MixKind || k == BlowOutKind then n else 0
  {
    if n > 0 {
      CompetentCellsCount(n - 1, k);
      CompetentCellsStepCount(n - 1, k);
      CountConcat(CompetentCellsOps(n - 1), CompetentCellsStep(n - 1), k);
    }
  }

  // ---------------------------------------------------------------- plating

  /** The 13 spots over agar well `well`. */
  function Spots(well: nat): seq<Loc> {
    seq(|SPOT_OFFSETS|, s requires 0 <= s < |SPOT_OFFSETS| => AgarSpot(well, SPOT_OFFSETS[s].0, SPOT_OFFSETS[s].1))
  }

  /** The 13 offsets are distinct and lie within 8 mm of the centre. */
  lemma SpotOffsets()
    ensures |SPOT_OFFSETS| == 13
    ensures forall s :: 0 <= s < |SPOT_OFFSETS| ==>
              SPOT_OFFSETS[s].0 * SPOT_OFFSETS[s].0 + SPOT_OFFSETS[s].1 * SPOT_OFFSETS[s].1 <= 80 * 80
    ensures forall s, t :: 0 <= s < t < |SPOT_OFFSETS| ==> SPOT_OFFSETS[s] != SPOT_OFFSETS[t]
  {
  }

  /** The spots over one agar well are 13 distinct places over that well, each within 8 mm of its centre. */
  lemma SpotLayout(well: nat)
    ensures |Spots(well)| == 13
    ensures forall s :: 0 <= s < |Spots(well)| ==>
              && Spots(well)[s].AgarSpot? && Spots(well)[s].well == well
              && Spots(well)[s].dx * Spots(well)[s].dx + Spots(well)[s].dy * Spots(well)[s].dy <= 80 * 80
    ensures forall s, t :: 0 <= s < t < |Spots(well)| ==> Spots(well)[s] != Spots(well)[t]
  {
    SpotOffsets();
  }

  /** An agar spot of well `well` at one of the 13 offsets. */
  predicate IsSpotOf(loc: Loc, well: nat) {
    loc.AgarSpot? && loc.well == well && (loc.dx, loc.dy) in SPOT_OFFSETS
  }

  /** The spots of `well` list each place that is a spot of that well once, and no other place. */
  lemma SpotHits(well: nat, loc: Loc)
    ensures Hits(Spots(well), loc) == if IsSpotOf(loc, well) then 1 else 0
  {
    var sp := Spots(well);
    SpotLayout(well);
    HitsDistinct(sp, loc);
    if loc in sp {
      var s :| 0 <= s < |sp| && sp[s] == loc;
      assert SPOT_OFFSETS[s] == (loc.dx, loc.dy);
    }
    if IsSpotOf(loc, well) {
      var s :| 0 <= s < |SPOT_OFFSETS| && SPOT_OFFSETS[s] == (loc.dx, loc.dy);
      assert sp[s] == loc;
    }
  }

  /** A new agar plate is needed before reaction `i` once `i` is a non-zero multiple of the plate's well count. */
  predicate Rollover(i: nat, a: nat)
    requires a > 0
  {
    i >= a && i % a == 0
  }

  function PlateChange(i: nat, a: nat): seq<Op>
    requires a > 0
  {
    if Rollover(i, a) then [Pause(CHANGE_AGAR_PLATE)] else []
  }

  /** Reaction `i` spotted onto agar well `well`: 4.5 µL per spot, 1.5 µL disposal volume, one fresh tip. */
  function PlatingBody(i: nat, well: nat): seq<Op> {
    [PickUpTip(P300Single), Mix(P300Single, 1, 25, ReactionWell(i)),
     Distribute(P300Single, 45, ReactionWell(i), Spots(well), 15), BlowOut(P300Single), DropTip(P300Single)]
  }

  /** Plating reaction `i` on agar well `i mod a`, after a plate change where one is due. */
  function PlatingStep(i: nat, a: nat): seq<Op>
    requires a > 0
  {
    PlateChange(i, a) + PlatingBody(i, i % a)
  }

  function PlatingOps(n: nat, a: nat): seq<Op>
    requires a > 0
  {
    if n == 0 then [] else PlatingOps(n - 1, a) + PlatingStep(n - 1, a)
  }

  /** The plating loop, with the first plate's wells and the rollover plates handled in two branches. */
  method PlateOnAgar(n: nat, a: nat) returns (ops: seq<Op>)
    requires a > 0
    ensures ops == PlatingOps(n, a)
  {
    ops := [];
    for i := 0 to n
      invariant ops == PlatingOps(i, a)
    {
      if i < a {
        DivUnique(i, a, 0, i);
        ops := ops + [PickUpTip(P300Single), Mix(P300Single, 1, 25, ReactionWell(i)),
                      Distribute(P300Single, 45, ReactionWell(i), Spots(i), 15), BlowOut(P300Single), DropTip(P300Single)];
        assert ops == PlatingOps(i, a) + PlateChange(i, a) + PlatingBody(i, i % a);
      }
      if i >= a {
        ghost var before := ops;
        if i % a == 0 {
          ops := ops + [Pause(CHANGE_AGAR_PLATE)];
        }
        assert ops == before + PlateChange(i, a);
        ops := ops + [PickUpTip(P300Single), Mix(P300Single, 1, 25, ReactionWell(i)),
                      Distribute(P300Single, 45, ReactionWell(i), Spots(i % a), 15), BlowOut(P300Single), DropTip(P300Single)];
        assert ops == before + PlateChange(i, a) + PlatingBody(i, i % a);
      }
    }
  }

  /** The distributions, in order. */
  function Distributions(ops: seq<Op>): seq<Op> {
    if ops == [] then [] else (if ops[0].Distribute? then [ops[0]] else []) + Distributions(ops[1..])
  }

  lemma {:induction false} DistributionsConcat(a: seq<Op>, b: seq<Op>)
    ensures Distributions(a + b) == Distributions(a) + Distributions(b)
  {
    if a == [] {
      assert a + b == b;
    } else {
      assert (a + b)[0] == a[0];
      assert (a + b)[1..] == a[1..] + b;
      DistributionsConcat(a[1..], b);
    }
  }

  lemma DistributionsCons(op: Op, rest: seq<Op>)
    ensures Distributions([op] + rest) == (if op.Distribute? then [op] else []) + Distributions(rest)
  {
    assert ([op] + rest)[1..] == rest;
  }

  lemma PlatingBodyDistributions(i: nat, well: nat)
    ensures Distributions(PlatingBody(i, well)) == [PlatingBody(i, well)[2]]
  {
    var b := PlatingBody(i, well);
    DistributionsCons(b[0], b[1..]);
    DistributionsCons(b[1], b[2..]);
    DistributionsCons(b[2], b[3..]);
    DistributionsCons(b[3], b[4..]);
    DistributionsCons(b[4], []);
  }

  lemma PlatingBodyPauses(i: nat, well: nat)
    ensures Pauses(PlatingBody(i, well)) == []
  {
    var b := PlatingBody(i, well);
    PausesCons(b[0], b[1..]);
    PausesCons(b[1], b[2..]);
    PausesCons(b[2], b[3..]);
    PausesCons(b[3], b[4..]);
    PausesCons(b[4], []);
  }

  lemma PlatingBodyCount(i: nat, well: nat, k: OpKind)
    ensures CountKind(PlatingBody(i, well), k) ==
              if k == PickUpKind || k == DropKind || k == MixKind || k == DistributeKind || k == BlowOutKind then 1 else 0
  {
    var b := PlatingBody(i, well);
    CountFive(b[0], b[1], b[2], b[3], b[4], k);
  }

  lemma PlateChangeMeasures(i: nat, a: nat, k: OpKind)
    requires a > 0
    ensures Pauses(PlateChange(i, a)) == if Rollover(i, a) then [CHANGE_AGAR_PLATE] else []
    ensures Distributions(PlateChange(i, a)) == []
    ensures CountKind(PlateChange(i, a), k) == if k == PauseKind && Rollover(i, a) then 1 else 0
  {
    if Rollover(i, a) {
      SingleOp(Pause(CHANGE_AGAR_PLATE));
      assert [Pause(CHANGE_AGAR_PLATE)][1..] == [];
    }
  }

  /** Plating takes liquid out of the reaction wells and delivers none into them. */
  lemma PlatingBodyVolume(i: nat, well: nat, loc: Loc)
    ensures VolumeInto(PlatingBody(i, well), loc) == 0
  {
    var b := PlatingBody(i, well);
    VolumeCons(b[0], b[1..], loc);
    VolumeCons(b[1], b[2..], loc);
    VolumeCons(b[2], b[3..], loc);
    VolumeCons(b[3], b[4..], loc);
    VolumeCons(b[4], [], loc);
  }

  lemma {:induction false} PlatingVolume(n: nat, a: nat, loc: Loc)
    requires a > 0
    ensures VolumeInto(PlatingOps(n, a), loc) == 0
  {
    if n > 0 {
      var i := n - 1;
      PlatingVolume(i, a, loc);
      PlatingBodyVolume(i, i % a, loc);
      if Rollover(i, a) {
        SingleVolume(Pause(CHANGE_AGAR_PLATE), loc);
      }
      VolumeConcat(PlateChange(i, a), PlatingBody(i, i % a), loc);
      VolumeConcat(PlatingOps(i, a), PlatingStep(i, a), loc);
    }
  }

  /** The tenths of a µL one plating step spots: 45 onto each spot of its agar well. */
  lemma PlatingBodySpotted(i: nat, well: nat, loc: Loc)
    ensures SpottedOnto(PlatingBody(i, well), loc) == 45 * Hits(Spots(well), loc)
  {
    var b := PlatingBody(i, well);
    SpottedCons(b[0], b[1..], loc);
    SpottedCons(b[1], b[2..], loc);
    SpottedCons(b[2], b[3..], loc);
    SpottedCons(b[3], b[4..], loc);
    SpottedCons(b[4], [], loc);
  }

  /** One plating step draws 13 spots of 4.5 µL and the 1.5 µL disposal out of its reaction well. */
  lemma PlatingBodyDrawn(i: nat, well: nat, loc: Loc)
    ensures DrawnFrom(PlatingBody(i, well), loc) == if loc == ReactionWell(i) then 600 else 0
  {
    var b := PlatingBody(i, well);
    SpotLayout(well);
    DrawnCons(b[0], b[1..], loc);
    DrawnCons(b[1], b[2..], loc);
    DrawnCons(b[2], b[3..], loc);
    DrawnCons(b[3], b[4..], loc);
    DrawnCons(b[4], [], loc);
  }

  lemma PlateChangeSpottedDrawn(i: nat, a: nat, loc: Loc)
    requires a > 0
    ensures SpottedOnto(PlateChange(i, a), loc) == 0 && DrawnFrom(PlateChange(i, a), loc) == 0
  {
    if Rollover(i, a) {
      SpottedCons(Pause(CHANGE_AGAR_PLATE), [], loc);
      DrawnCons(Pause(CHANGE_AGAR_PLATE), [], loc);
      assert [Pause(CHANGE_AGAR_PLATE)] + [] == PlateChange(i, a);
    }
  }

  /** How many of the first `n` reactions are plated onto agar well `w`. */
  function PlatedOnWell(n: nat, a: nat, w: nat): nat
    requires a > 0
  {
    if n == 0 then 0 else PlatedOnWell(n - 1, a, w) + (if (n - 1) % a == w then 1 else 0)
  }

  /**
   * Plating puts 4.5 µL onto each of the 13 spots of agar well `w` for every
   * reaction plated onto that well, and nothing anywhere else.
   */
  lemma {:induction false} PlatingSpotted(n: nat, a: nat, loc: Loc)
    requires a > 0
    ensures SpottedOnto(PlatingOps(n, a), loc) ==
              if loc.AgarSpot? && IsSpotOf(loc, loc.well) then 45 * PlatedOnWell(n, a, loc.well) else 0
  {
    if n > 0 {
      var i := n - 1;
      PlatingSpotted(i, a, loc);
      PlatingBodySpotted(i, i % a, loc);
      SpotHits(i % a, loc);
      PlateChangeSpottedDrawn(i, a, loc);
      SpottedConcat(PlateChange(i, a), PlatingBody(i, i % a), loc);
      SpottedConcat(PlatingOps(i, a), PlatingStep(i, a), loc);
    }
  }

  /**
   * Plating draws 60 µL (600 tenths) out of each of the `n` reaction wells,
   * and nothing out of any other place.
   */
  lemma {:induction false} PlatingDrawn(n: nat, a: nat, loc: Loc)
    requires a > 0
    ensures DrawnFrom(PlatingOps(n, a), loc) == if loc.ReactionWell? && loc.index < n then 600 else 0
  {
    if n > 0 {
      var i := n - 1;
      PlatingDrawn(i, a, loc);
      PlatingBodyDrawn(i, i % a, loc);
      PlateChangeSpottedDrawn(i, a, loc);
      DrawnConcat(PlateChange(i, a), PlatingBody(i, i % a), loc);
      DrawnConcat(PlatingOps(i, a), PlatingStep(i, a), loc);
    }
  }

  /** Agar well `w` is used once on every plate the run reaches that far: ceil((n - w) / a) times. */
  lemma {:induction false} PlatedOnWellCount(n: nat, a: nat, w: nat)
    requires w < a
    ensures PlatedOnWell(n, a, w) == if n <= w then 0 else (n - 1 - w) / a + 1
  {
    if n > 0 {
      var i := n - 1;
      PlatedOnWellCount(i, a, w);
      PlatedOnWellStep(i, a, w);
    }
  }

  /** The closed form grows by one exactly at the reactions that land on well `w`. */
  lemma PlatedOnWellStep(i: nat, a: nat, w: nat)
    requires w < a
    ensures (if i + 1 <= w then 0 else (i - w) / a + 1) ==
              (if i <= w then 0 else (i - 1 - w) / a + 1) + (if i % a == w then 1 else 0)
  {
    if i <= w {
      DivUnique(i, a, 0, i);
      DivUnique(0, a, 0, 0);
    } else {
      DivStep(i - w, a);
      ResidueShift(i, a, w);
    }
  }

  /** `i - w` is a multiple of `a` exactly when `i` leaves remainder `w`. */
  lemma ResidueShift(i: nat, a: nat, w: nat)
    requires w < a && w <= i
    ensures (i - w) % a == 0 <==> i % a == w
  {
    if (i - w) % a == 0 {
      DivUnique(i, a, (i - w) / a, w);
    }
    if i % a == w {
      DivUnique(i - w, a, i / a, 0);
    }
  }

  /** `m / a` steps up by one exactly at the multiples of `a`. */
  lemma DivStep(m: nat, a: nat)
    requires m > 0 && a > 0
    ensures m / a == (m - 1) / a + (if m % a == 0 then 1 else 0)
  {
    var q, r := (m - 1) / a, (m - 1) % a;
    assert m - 1 == a * q + r;
    if r == a - 1 {
      assert m == a * (q + 1);
      DivUnique(m, a, q + 1, 0);
    } else {
      assert m == a * q + (r + 1);
      DivUnique(m, a, q, r + 1);
    }
  }

  lemma DivUnique(m: nat, a: nat, q: nat, r: nat)
    requires a > 0 && r < a && m == a * q + r
    ensures m / a == q && m % a == r
  {
    var q', r' := m / a, m % a;
    assert m == a * q' + r';
    if q' > q {
      assert a * q' >= a * (q + 1) by { MulMonotone(a, q + 1, q'); }
    } else if q' < q {
      assert a * q >= a * (q' + 1) by { MulMonotone(a, q' + 1, q); }
    }
  }

  lemma MulMonotone(a: nat, x: nat, y: nat)
    requires x <= y
    ensures a * x <= a * y
  {
    assert a * y == a * x + a * (y - x);
  }

  /** The number of plate changes the first `n` reactions need. */
  function Rollovers(n: nat, a: nat): nat
    requires a > 0
  {
    if n == 0 then 0 else (n - 1) / a
  }

  /**
   * Plating `n` reactions asks for a new agar plate (n - 1) / a times, and
   * those are the only pauses of the pass.
   */
  lemma {:induction false} PlatingPauses(n: nat, a: nat)
    requires a > 0
    ensures |Pauses(PlatingOps(n, a))| == Rollovers(n, a)
    ensures forall t :: 0 <= t < |Pauses(PlatingOps(n, a))| ==> Pauses(PlatingOps(n, a))[t] == CHANGE_AGAR_PLATE
  {
    if n > 0 {
      var i := n - 1;
      PlatingPauses(i, a);
      PlatingStepPauses(i, a);
      RolloversStep(i, a);
      PausesConcat(PlatingOps(i, a), PlatingStep(i, a));
    }
  }

  /** The only pause of one plating step is the plate change, when the step rolls over. */
  lemma PlatingStepPauses(i: nat, a: nat)
    requires a > 0
    ensures Pauses(PlatingStep(i, a)) == if Rollover(i, a) then [CHANGE_AGAR_PLATE] else []
  {
    PlateChangeMeasures(i, a, PauseKind);
    PlatingBodyPauses(i, i % a);
    PausesConcat(PlateChange(i, a), PlatingBody(i, i % a));
  }

  /** Plating one more reaction adds a plate change exactly when that reaction rolls over. */
  lemma RolloversStep(i: nat, a: nat)
    requires a > 0
    ensures Rollovers(i + 1, a) == Rollovers(i, a) + (if Rollover(i, a) then 1 else 0)
  {
    if i > 0 {
      DivStep(i, a);
      if i < a { DivUnique(i, a, 0, i); }
    }
  }

  /** The distribution that plates reaction `i` onto agar well `i mod a`. */
  function PlatedOnto(i: nat, a: nat): Op
    requires a > 0
  {
    Distribute(P300Single, 45, ReactionWell(i), Spots(i % a), 15)
  }

  /** Reaction `a * q + w` with `w < a` is spotted onto agar well `w`. */
  lemma PlatedOntoWell(i: nat, a: nat, q: nat, w: nat)
    requires a > 0 && w < a && i == a * q + w
    ensures PlatedOnto(i, a) == Distribute(P300Single, 45, ReactionWell(i), Spots(w), 15)
  {
    DivUnique(i, a, q, w);
  }

  lemma PlatingStepDistributions(i: nat, a: nat)
    requires a > 0
    ensures Distributions(PlatingStep(i, a)) == [PlatedOnto(i, a)]
  {
    PlateChangeMeasures(i, a, PauseKind);
    PlatingBodyDistributions(i, i % a);
    DistributionsConcat(PlateChange(i, a), PlatingBody(i, i % a));
  }

  /** Reaction `i` is the `i`-th distribution, spotted onto agar well `i mod a`, and every plating distributes. */
  lemma {:induction false} PlatingDistributions(n: nat, a: nat)
    requires a > 0
    ensures |Distributions(PlatingOps(n, a))| == n
    ensures forall i :: 0 <= i < n ==> Distributions(PlatingOps(n, a))[i] == PlatedOnto(i, a)
  {
    if n > 0 {
      PlatingDistributions(n - 1, a);
      PlatingStepDistributions(n - 1, a);
      DistributionsConcat(PlatingOps(n - 1, a), PlatingStep(n - 1, a));
      assert Distributions(PlatingOps(n, a)) == Distributions(PlatingOps(n - 1, a)) + [PlatedOnto(n - 1, a)];
      AppendPlated(Distributions(PlatingOps(n - 1, a)), n - 1, a);
    }
  }

  /** The distributions of reactions 0 to m - 1, then that of reaction m. */
  lemma AppendPlated(prev: seq<Op>, m: nat, a: nat)
    requires a > 0 && |prev| == m
    requires forall i :: 0 <= i < m ==> prev[i] == PlatedOnto(i, a)
    ensures forall i :: 0 <= i < m + 1 ==> (prev + [PlatedOnto(m, a)])[i] == PlatedOnto(i, a)
  {
  }

  /** The distribution of one reaction, picked out of the pass. */
  lemma PlatingDistributionAt(n: nat, a: nat, i: nat)
    requires a > 0 && i < n
    ensures |Distributions(PlatingOps(n, a))| == n && Distributions(PlatingOps(n, a))[i] == PlatedOnto(i, a)
  {
    PlatingDistributions(n, a);
  }

  /** One fresh 300 µL tip, one mix, one distribution and one blow-out per reaction; a pause per plate change. */
  lemma {:induction false} PlatingCount(n: nat, a: nat, k: OpKind)
    requires a > 0
    ensures CountKind(PlatingOps(n, a), k) ==
              if k == PauseKind then Rollovers(n, a)
              else if k == PickUpKind || k == DropKind || k == MixKind || k == DistributeKind || k == BlowOutKind then n
              else 0
  {
    if n > 0 {
      var i := n - 1;
      PlatingCount(i, a, k);
      PlateChangeMeasures(i, a, k);
      PlatingBodyCount(i, i % a, k);
      CountConcat(PlateChange(i, a), PlatingBody(i, i % a), k);
      CountConcat(PlatingOps(i, a), PlatingStep(i, a), k);
      RolloversStep(i, a);
    }
  }

  /**
   * Two reactions that land on the same agar well are separated by a plate
   * change: counting the pauses up to each one's plating, the later one has
   * seen strictly more.
   */
  lemma PlatingNoReuse(a: nat, i: nat, j: nat)
    requires a > 0 && i < j && i % a == j % a
    ensures CountKind(PlatingOps(i + 1, a), PauseKind) < CountKind(PlatingOps(j + 1, a), PauseKind)
  {
    PlatingCount(i + 1, a, PauseKind);
    PlatingCount(j + 1, a, PauseKind);
    SameResidue(a, i, j);
  }

  /** Of two numbers with the same remainder, the smaller has the smaller quotient. */
  lemma SameResidue(a: nat, i: nat, j: nat)
    requires a > 0 && i < j && i % a == j % a
    ensures i / a < j / a
  {
    var qi, qj, r := i / a, j / a, i % a;
    assert i == a * qi + r;
    assert j == a * qj + r;
    if qj <= qi {
      MulMonotone(a, qj, qi);
    }
  }

  /** Thirteen reactions on a 12-well agar plate: one plate change, and reaction 12 reuses well 0 of the new plate. */
  lemma ThirteenReactionsExample(n: nat)
    requires n == 13
    ensures Pauses(PlatingOps(n, AGAR_PLATE_WELLS)) == [CHANGE_AGAR_PLATE]
    ensures |Distributions(PlatingOps(n, AGAR_PLATE_WELLS))| == n
    ensures Distributions(PlatingOps(n, AGAR_PLATE_WELLS))[12] ==
              Distribute(P300Single, 45, ReactionWell(12), Spots(0), 15)
  {
    OnePlateChange(n, AGAR_PLATE_WELLS);
    FirstOnNewPlate(n, AGAR_PLATE_WELLS);
  }

  /** The first reaction past a full agar plate goes onto well 0 of the next one. */
  lemma FirstOnNewPlate(n: nat, a: nat)
    requires 0 < a < n
    ensures |Distributions(PlatingOps(n, a))| == n
    ensures Distributions(PlatingOps(n, a))[a] == Distribute(P300Single, 45, ReactionWell(a), Spots(0), 15)
  {
    PlatingDistributionAt(n, a, a);
    PlatedOntoWell(a, a, 1, 0);
  }

  /** More reactions than one agar plate holds, but no more than two plates hold, need one plate change. */
  lemma OnePlateChange(n: nat, a: nat)
    requires 0 < a < n <= 2 * a
    ensures Pauses(PlatingOps(n, a)) == [CHANGE_AGAR_PLATE]
  {
    PlatingPauses(n, a);
    DivUnique(n - 1, a, 1, n - 1 - a);
    var ps := Pauses(PlatingOps(n, a));
    assert |ps| == 1 && ps[0] == CHANGE_AGAR_PLATE;
  }

  /** On a 6-well agar plate, 13 reactions need new plates before reactions 6 and 12 only. */
  lemma SixWellPlateExample(n: nat)
    requires n == 13
    ensures forall i :: 0 <= i < n ==> (Rollover(i, 6) <==> i == 6 || i == 12)
    ensures Pauses(PlatingOps(n, 6)) == [CHANGE_AGAR_PLATE, CHANGE_AGAR_PLATE]
  {
    forall i | 0 <= i < n ensures Rollover(i, 6) <==> i == 6 || i == 12 {
      RolloverWithinThreePlates(i, 6);
    }
    TwoPlateChanges(n, 6);
  }

  /** Within the first three plates' worth of reactions, only the first of the second and of the third plate roll over. */
  lemma RolloverWithinThreePlates(i: nat, a: nat)
    requires 0 < a && i < 3 * a
    ensures Rollover(i, a) <==> i == a || i == 2 * a
  {
    if i < a {
      DivUnique(i, a, 0, i);
    } else if i < 2 * a {
      DivUnique(i, a, 1, i - a);
    } else {
      DivUnique(i, a, 2, i - 2 * a);
    }
  }

  /** More reactions than two agar plates hold, but no more than three hold, need two plate changes. */
  lemma TwoPlateChanges(n: nat, a: nat)
    requires 0 < a && 2 * a < n <= 3 * a
    ensures Pauses(PlatingOps(n, a)) == [CHANGE_AGAR_PLATE, CHANGE_AGAR_PLATE]
  {
    PlatingPauses(n, a);
    DivUnique(n - 1, a, 2, n - 1 - 2 * a);
    var ps := Pauses(PlatingOps(n, a));
    assert |ps| == 2 && ps[0] == CHANGE_AGAR_PLATE && ps[1] == CHANGE_AGAR_PLATE;
  }

  // ---------------------------------------------------------------- the whole run

  /** The operations up to, not including, the first pause. */
  function BeforeFirstPause(ops: seq<Op>): (r: seq<Op>)
    ensures r <= ops
  {
    if ops == [] || ops[0].Pause? then [] else [ops[0]] + BeforeFirstPause(ops[1..])
  }

  lemma {:induction false} BeforeFirstPauseConcat(a: seq<Op>, b: seq<Op>)
    requires Pauses(a) == [] && b != [] && b[0].Pause?
    ensures BeforeFirstPause(a + b) == a
  {
    if a == [] {
      assert a + b == b;
    } else {
      PausesCons(a[0], a[1..]);
      assert a == [a[0]] + a[1..];
      assert (a + b)[1..] == a[1..] + b;
      BeforeFirstPauseConcat(a[1..], b);
    }
  }

  /** Everything the template emits before the first pause: the set-up, the pre-fill and the fan-out. */
  function AssemblyOps(plates: seq<Plate>, combos: seq<Combination>): seq<Op> {
    Setup() + PreFillOps(combos) + FanOut(ByPart(combos), plates, combos).ops
  }

  /** Everything after the fan-out, for `n` reactions. */
  function LaterStages(n: nat): seq<Op> {
    AssemblyProgram() + CompetentCellsOps(n) + HeatShockProgram() + PlatingOps(n, AGAR_PLATE_WELLS) + Finish()
  }

  /**
   * The run of the template on a plate-map dictionary (in key order) and a
   * combination list: what it emits, and the error that stops it, if any.
   */
  function Protocol(plates: seq<Plate>, combos: seq<Combination>): Emission {
    if |plates| < 2 then Emission(Setup(), Some(TooFewPlateMaps(|plates|)))
    else
      var fan := FanOut(ByPart(combos), plates, combos);
      if fan.failure.Some? then Emission(AssemblyOps(plates, combos), fan.failure)
      else Emission(AssemblyOps(plates, combos) + LaterStages(|combos|), None)
  }

  lemma SetupOps()
    ensures Setup() == [Module(OpenLid), Module(SetBlockTemperature(4))]
  {
  }

  /** The dictionary built by the adjacency loop, read as its items, is `ByPart`. */
  lemma ItemsAreByPart(combos: seq<Combination>, keys: seq<string>, uses: map<string, seq<string>>)
    requires keys == FirstAppearances(PartsOf(Occurrences(combos)))
    requires forall p :: p in uses <==> p in keys
    requires forall p :: p in uses ==> uses[p] == NamesFor(Occurrences(combos), p)
    ensures Items(keys, uses) == ByPart(combos)
  {
    assert |Items(keys, uses)| == |ByPart(combos)|;
  }

  /** Appending the later stages one by one appends `LaterStages`. */
  lemma LaterStagesAppended(head: seq<Op>, n: nat)
    ensures head + AssemblyProgram() + CompetentCellsOps(n) + HeatShockProgram()
            + PlatingOps(n, AGAR_PLATE_WELLS) + Finish() == head + LaterStages(n)
  {
    var a, c, h, p, f := AssemblyProgram(), CompetentCellsOps(n), HeatShockProgram(), PlatingOps(n, AGAR_PLATE_WELLS), Finish();
    assert head + a + c == head + (a + c);
    assert head + (a + c) + h == head + (a + c + h);
    assert head + (a + c + h) + p == head + (a + c + h + p);
    assert head + (a + c + h + p) + f == head + (a + c + h + p + f);
  }

  /** The template's `run`: set-up, labware by key position, adjacency, pre-fill, fan-out, stages, plating. */
  method RunProtocol(plates: seq<Plate>, combos: seq<Combination>) returns (ops: seq<Op>, failure: Option<LookupError>)
    requires |combos| <= REACTION_PLATE_WELLS
    ensures Emission(ops, failure) == Protocol(plates, combos)
  {
    ops := [Module(OpenLid), Module(SetBlockTemperature(4))];
    failure := None;
    SetupOps();
    if |plates| < 2 {
      failure := Some(TooFewPlateMaps(|plates|));
      return;
    }
    var keys, uses := CombinationsByPart(combos);
    ItemsAreByPart(combos, keys, uses);
    var prefill := PreFill(combos);
    ops := ops + prefill;
    var fanOps, fanFailure := CombineParts(keys, uses, plates, combos);
    ops := ops + fanOps;
    if fanFailure.Some? {
      failure := fanFailure;
      return;
    }
    ghost var head := ops;
    ops := ops + AssemblyProgram();
    var cells := AddCompetentCells(|combos|);
    ops := ops + cells;
    ops := ops + HeatShockProgram();
    var plating := PlateOnAgar(|combos|, AGAR_PLATE_WELLS);
    ops := ops + plating;
    ops := ops + Finish();
    LaterStagesAppended(head, |combos|);
  }

  /** Nothing before the first stage pauses. */
  lemma AssemblyOpsPauses(plates: seq<Plate>, combos: seq<Combination>)
    ensures Pauses(AssemblyOps(plates, combos)) == []
  {
    var fan := FanOut(ByPart(combos), plates, combos);
    ModulesPauses(SETUP_STEPS);
    PreFillCount(combos, PauseKind);
    MeasureLengths(PreFillOps(combos));
    FanOutTips(ByPart(combos), plates, combos);
    PausesConcat(Setup(), PreFillOps(combos));
    PausesConcat(Setup() + PreFillOps(combos), fan.ops);
  }

  /**
   * The run completes exactly when there are at least two plate maps and
   * find_dna places every part any combination lists.
   */
  lemma ProtocolCompletes(plates: seq<Plate>, combos: seq<Combination>)
    ensures Protocol(plates, combos).failure == None <==>
              |plates| >= 2 && forall p :: p in PartsOf(Occurrences(combos)) ==> FindDna(p, plates).Ok?
  {
    ProtocolFailure(plates, combos);
    ByPartFanOutCompletes(plates, combos);
  }

  /** The run fails exactly when there are too few plate maps or the fan-out fails. */
  lemma ProtocolFailure(plates: seq<Plate>, combos: seq<Combination>)
    ensures Protocol(plates, combos).failure == None <==>
              |plates| >= 2 && FanOut(ByPart(combos), plates, combos).failure == None
  {
  }

  /**
   * A run stopped by find_dna at the `f`-th part of the dictionary keeps what
   * the set-up, the pre-fill and the earlier parts emitted, reports that
   * part's error, and never reaches a stage pause.
   */
  lemma ProtocolStopsAt(plates: seq<Plate>, combos: seq<Combination>, f: nat)
    requires |plates| >= 2 && f < |ByPart(combos)|
    requires forall k :: 0 <= k < f ==> FindDna(ByPart(combos)[k].part, plates).Ok?
    requires FindDna(ByPart(combos)[f].part, plates).Err?
    ensures Protocol(plates, combos) ==
              Emission(Setup() + PreFillOps(combos) + FanOut(ByPart(combos)[..f], plates, combos).ops,
                       Some(FindDna(ByPart(combos)[f].part, plates).error))
    ensures Pauses(Protocol(plates, combos).ops) == []
  {
    ByPartWellsResolve(combos);
    FanOutStops(ByPart(combos), plates, combos, f);
    AssemblyOpsPauses(plates, combos);
  }

  /** The later stages pause in stage order, then once per agar-plate change. */
  lemma LaterStagesPauses(n: nat)
    ensures Pauses(LaterStages(n)) ==
              [SEAL_FOR_ASSEMBLY, UNSEAL_FOR_HEAT_SHOCK, RESEAL_FOR_HEAT_SHOCK, UNSEAL_FOR_PLATING]
              + Pauses(PlatingOps(n, AGAR_PLATE_WELLS))
  {
    AssemblyProgramPauses();
    HeatShockProgramPauses();
    CompetentCellsCount(n, PauseKind);
    MeasureLengths(CompetentCellsOps(n));
    ModulesPauses([DeactivateThermocycler]);
    var a, h, pl := AssemblyProgram(), HeatShockProgram(), PlatingOps(n, AGAR_PLATE_WELLS);
    FivePiecePauses(a, CompetentCellsOps(n), h, pl, Finish());
    JoinPairs(SEAL_FOR_ASSEMBLY, UNSEAL_FOR_HEAT_SHOCK, RESEAL_FOR_HEAT_SHOCK, UNSEAL_FOR_PLATING, Pauses(pl));
  }

  lemma JoinPairs(p1: string, p2: string, p3: string, p4: string, rest: seq<string>)
    ensures [p1, p2] + [p3, p4] + rest == [p1, p2, p3, p4] + rest
  {
  }

  /** The pauses of five pieces run one after another, when the second and the last have none. */
  lemma FivePiecePauses(a: seq<Op>, c: seq<Op>, h: seq<Op>, pl: seq<Op>, fi: seq<Op>)
    requires Pauses(c) == [] && Pauses(fi) == []
    ensures Pauses(a + c + h + pl + fi) == Pauses(a) + Pauses(h) + Pauses(pl)
  {
    PausesConcat(a, c);
    PausesConcat(a + c, h);
    PausesConcat(a + c + h, pl);
    PausesConcat(a + c + h + pl, fi);
  }

  /** The later stages deliver only the competent cells. */
  lemma LaterStagesVolume(n: nat, loc: Loc)
    ensures VolumeInto(LaterStages(n), loc) ==
              if loc.ReactionWell? && loc.index < n then COMPETENT_CELL_VOLUME else 0
  {
    var a, c, h, pl, fi := AssemblyProgram(), CompetentCellsOps(n), HeatShockProgram(), PlatingOps(n, AGAR_PLATE_WELLS), Finish();
    FixedStageVolumes(loc);
    CompetentCellsVolume(n, loc);
    PlatingVolume(n, AGAR_PLATE_WELLS, loc);
    VolumeConcat(a, c, loc);
    VolumeConcat(a + c, h, loc);
    VolumeConcat(a + c + h, pl, loc);
    VolumeConcat(a + c + h + pl, fi, loc);
  }

  /**
   * A completed run pauses for the operator in stage order: seal before the
   * assembly program, unseal after it, reseal before the heat shock, unseal
   * for plating, and then once per agar-plate change.
   */
  lemma ProtocolPauses(plates: seq<Plate>, combos: seq<Combination>)
    requires Protocol(plates, combos).failure == None
    ensures Pauses(Protocol(plates, combos).ops) ==
              [SEAL_FOR_ASSEMBLY, UNSEAL_FOR_HEAT_SHOCK, RESEAL_FOR_HEAT_SHOCK, UNSEAL_FOR_PLATING]
              + Pauses(PlatingOps(|combos|, AGAR_PLATE_WELLS))
    ensures |Pauses(Protocol(plates, combos).ops)| == 4 + Rollovers(|combos|, AGAR_PLATE_WELLS)
    ensures forall t :: 4 <= t < |Pauses(Protocol(plates, combos).ops)| ==>
              Pauses(Protocol(plates, combos).ops)[t] == CHANGE_AGAR_PLATE
  {
    var n := |combos|;
    var head := AssemblyOps(plates, combos);
    assert Protocol(plates, combos).ops == head + LaterStages(n);
    AssemblyOpsPauses(plates, combos);
    LaterStagesPauses(n);
    PlatingPauses(n, AGAR_PLATE_WELLS);
    PausesConcat(head, LaterStages(n));
  }

  /** The set-up adds nothing to the 10 µL the pre-fill and the fan-out put into each reaction well. */
  lemma AssemblyVolume(plates: seq<Plate>, combos: seq<Combination>, i: nat)
    requires FanOut(ByPart(combos), plates, combos).failure == None
    requires DistinctNames(combos) && i < |combos|
    ensures VolumeInto(AssemblyOps(plates, combos), ReactionWell(i)) == 10
  {
    var fan := FanOut(ByPart(combos), plates, combos);
    ModulesVolume(SETUP_STEPS, ReactionWell(i));
    ReactionVolumes(plates, combos, i);
    VolumeRegroup(Setup(), PreFillOps(combos), fan.ops, ReactionWell(i));
  }

  /**
   * With distinct combination names, a completed run has put 10 µL into
   * every reaction well by the time it first pauses to seal the plate, and
   * 60 µL by the end, after the competent cells.
   */
  lemma ProtocolVolumes(plates: seq<Plate>, combos: seq<Combination>, i: nat)
    requires Protocol(plates, combos).failure == None
    requires DistinctNames(combos) && i < |combos|
    ensures VolumeInto(BeforeFirstPause(Protocol(plates, combos).ops), ReactionWell(i)) == 10
    ensures VolumeInto(Protocol(plates, combos).ops, ReactionWell(i)) == 10 + COMPETENT_CELL_VOLUME
  {
    var n := |combos|;
    var head, tail := AssemblyOps(plates, combos), LaterStages(n);
    assert Protocol(plates, combos).ops == head + tail;
    AssemblyVolume(plates, combos, i);
    AssemblyProgramPauses();
    assert tail[0] == Pause(SEAL_FOR_ASSEMBLY);
    AssemblyOpsPauses(plates, combos);
    BeforeFirstPauseConcat(head, tail);
    LaterStagesVolume(n, ReactionWell(i));
    VolumeConcat(head, tail, ReactionWell(i));
  }
}
