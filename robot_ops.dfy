/**
 * The abstract robot operations the protocol template emits, in the order the
 * execution engine would carry them out, and measures over a sequence of them.
 */
module RobotOps {

  /** The two pipettes the template loads: a 10 µL single channel and a 300 µL one. */
  datatype Pipette = P10Single | P300Single

  /** A place a pipette can reach. */
  datatype Loc =
    | TroughWell(index: nat)            // trough.wells()[index] on the temperature module
    | DnaWell(plate: nat, index: nat)   // well `index` of the labware loaded for the plate-map entry at position `plate`
    | ReactionWell(index: nat)          // reaction_plate.wells()[index] on the thermocycler
    | AgarSpot(well: nat, dx: int, dy: int)  // an offset, in tenths of a millimetre, above agar well `well`

  /** Named trough wells. */
  const BUFFER_MIX := TroughWell(0)      // A1: type IIS enzyme and buffer mix
  const WATER := TroughWell(1)           // B1
  const COMPETENT_CELLS := TroughWell(3) // D1

  /** One step of a thermal profile: hold the block at `celsius` for `holdSeconds`. */
  datatype ThermalStep = ThermalStep(celsius: int, holdSeconds: nat)

  /** Thermocycler and temperature-module actions. */
  datatype ModuleStep =
    | OpenLid
    | CloseLid
    | SetLidTemperature(celsius: int)
    | SetBlockTemperature(celsius: int)
    | ExecuteProfile(steps: seq<ThermalStep>, repetitions: nat, blockMaxVolume: nat)
    | DeactivateTemperatureModule
    | DeactivateThermocycler

  datatype Op =
    | PickUpTip(pipette: Pipette)
    | DropTip(pipette: Pipette)
    | Aspirate(pipette: Pipette, volume: int, source: Loc)
    | Dispense(pipette: Pipette, volume: int, dest: Loc)
    | Mix(pipette: Pipette, repetitions: nat, volume: int, location: Loc)
    | BlowOut(pipette: Pipette)
    | Consolidate(pipette: Pipette, volumes: seq<int>, sources: seq<Loc>, dest: Loc)
    | Transfer(pipette: Pipette, volume: int, source: Loc, dest: Loc)
    | Distribute(pipette: Pipette, tenths: int, source: Loc, dests: seq<Loc>, disposalTenths: int)
    | Pause(message: string)
    | Module(step: ModuleStep)

  datatype OpKind =
    PickUpKind | DropKind | AspirateKind | DispenseKind | MixKind | BlowOutKind
    | ConsolidateKind | TransferKind | DistributeKind | PauseKind | ModuleKind

  function KindOf(op: Op): OpKind {
    match op
    case PickUpTip(_) => PickUpKind
    case DropTip(_) => DropKind
    case Aspirate(_, _, _) => AspirateKind
    case Dispense(_, _, _) => DispenseKind
    case Mix(_, _, _, _) => MixKind
    case BlowOut(_) => BlowOutKind
    case Consolidate(_, _, _, _) => ConsolidateKind
    case Transfer(_, _, _, _) => TransferKind
    case Distribute(_, _, _, _, _) => DistributeKind
    case Pause(_) => PauseKind
    case Module(_) => ModuleKind
  }

  /** How many operations of kind `k` the sequence holds. */
  function CountKind(ops: seq<Op>, k: OpKind): (r: nat)
    ensures r <= |ops|
  {
    if ops == [] then 0 else (if KindOf(ops[0]) == k then 1 else 0) + CountKind(ops[1..], k)
  }

  /** The sum of a list of volumes. */
  function Sum(vs: seq<int>): int {
    if vs == [] then 0 else vs[0] + Sum(vs[1..])
  }

  /** The volume one operation delivers into `loc`. */
  function Delivered(op: Op, loc: Loc): int {
    match op
    case Dispense(_, v, d) => if d == loc then v else 0
    case Consolidate(_, vs, _, d) => if d == loc then Sum(vs) else 0
    case Transfer(_, v, _, d) => if d == loc then v else 0
    case _ => 0
  }

  /** The total volume a sequence of operations delivers into `loc`. */
  function VolumeInto(ops: seq<Op>, loc: Loc): int {
    if ops == [] then 0 else Delivered(ops[0], loc) + VolumeInto(ops[1..], loc)
  }

  /** How often `loc` is listed in `locs`. */
  function Hits(locs: seq<Loc>, loc: Loc): nat {
    if locs == [] then 0 else (if locs[0] == loc then 1 else 0) + Hits(locs[1..], loc)
  }

  /**
   * Tenths of a µL one operation spots onto `loc`: a distribute puts its
   * per-destination volume onto each destination, once per listing.
   */
  function Spotted(op: Op, loc: Loc): int {
    match op
    case Distribute(_, t, _, ds, _) => t * Hits(ds, loc)
    case _ => 0
  }

  /** The tenths of a µL a sequence of operations distributes onto `loc`. */
  function SpottedOnto(ops: seq<Op>, loc: Loc): int {
    if ops == [] then 0 else Spotted(ops[0], loc) + SpottedOnto(ops[1..], loc)
  }

  /**
   * Tenths of a µL one operation draws out of `loc`: a distribute takes one
   * volume per destination and its disposal volume on top.
   */
  function Drawn(op: Op, loc: Loc): int {
    match op
    case Distribute(_, t, s, ds, disposal) => if s == loc then t * |ds| + disposal else 0
    case _ => 0
  }

  /** The tenths of a µL a sequence of operations draws out of `loc` by distributing. */
  function DrawnFrom(ops: seq<Op>, loc: Loc): int {
    if ops == [] then 0 else Drawn(ops[0], loc) + DrawnFrom(ops[1..], loc)
  }

  /** A list without repeats lists each of its places once and no other place. */
  lemma {:induction false} HitsDistinct(locs: seq<Loc>, loc: Loc)
    requires forall s, t :: 0 <= s < t < |locs| ==> locs[s] != locs[t]
    ensures Hits(locs, loc) == if loc in locs then 1 else 0
  {
    if locs != [] {
      var rest := locs[1..];
      HitsDistinct(rest, loc);
      assert locs == [locs[0]] + rest;
    }
  }

  /** The messages of the pauses, in order. */
  function Pauses(ops: seq<Op>): seq<string> {
    if ops == [] then []
    else (if ops[0].Pause? then [ops[0].message] else []) + Pauses(ops[1..])
  }

  /** The destinations of the dispenses, in order. */
  function DispenseTargets(ops: seq<Op>): seq<Loc> {
    if ops == [] then []
    else (if ops[0].Dispense? then [ops[0].dest] else []) + DispenseTargets(ops[1..])
  }

  /** The volumes of the aspirations, in order. */
  function AspirateVolumes(ops: seq<Op>): seq<int> {
    if ops == [] then []
    else (if ops[0].Aspirate? then [ops[0].volume] else []) + AspirateVolumes(ops[1..])
  }

  /** Each list measure has one entry per operation of its kind. */
  lemma {:induction false} MeasureLengths(ops: seq<Op>)
    ensures |Pauses(ops)| == CountKind(ops, PauseKind)
    ensures |DispenseTargets(ops)| == CountKind(ops, DispenseKind)
    ensures |AspirateVolumes(ops)| == CountKind(ops, AspirateKind)
  {
    if ops != [] {
      MeasureLengths(ops[1..]);
    }
  }

  /** Each measure above distributes over concatenation. */
  lemma {:induction false} CountConcat(a: seq<Op>, b: seq<Op>, k: OpKind)
    ensures CountKind(a + b, k) == CountKind(a, k) + CountKind(b, k)
  {
    if a == [] {
      assert a + b == b;
    } else {
      assert (a + b)[1..] == a[1..] + b;
      CountConcat(a[1..], b, k);
    }
  }

  lemma {:induction false} VolumeConcat(a: seq<Op>, b: seq<Op>, loc: Loc)
    ensures VolumeInto(a + b, loc) == VolumeInto(a, loc) + VolumeInto(b, loc)
  {
    if a == [] {
      assert a + b == b;
    } else {
      assert (a + b)[1..] == a[1..] + b;
      VolumeConcat(a[1..], b, loc);
    }
  }

  lemma {:induction false} SpottedConcat(a: seq<Op>, b: seq<Op>, loc: Loc)
    ensures SpottedOnto(a + b, loc) == SpottedOnto(a, loc) + SpottedOnto(b, loc)
  {
    if a == [] {
      assert a + b == b;
    } else {
      assert (a + b)[1..] == a[1..] + b;
      SpottedConcat(a[1..], b, loc);
    }
  }

  lemma {:induction false} DrawnConcat(a: seq<Op>, b: seq<Op>, loc: Loc)
    ensures DrawnFrom(a + b, loc) == DrawnFrom(a, loc) + DrawnFrom(b, loc)
  {
    if a == [] {
      assert a + b == b;
    } else {
      assert (a + b)[1..] == a[1..] + b;
      DrawnConcat(a[1..], b, loc);
    }
  }

  lemma {:induction false} PausesConcat(a: seq<Op>, b: seq<Op>)
    ensures Pauses(a + b) == Pauses(a) + Pauses(b)
  {
    if a == [] {
      assert a + b == b;
    } else {
      assert (a + b)[0] == a[0];
      assert (a + b)[1..] == a[1..] + b;
      PausesConcat(a[1..], b);
    }
  }

  lemma {:induction false} DispenseTargetsConcat(a: seq<Op>, b: seq<Op>)
    ensures DispenseTargets(a + b) == DispenseTargets(a) + DispenseTargets(b)
  {
    if a == [] {
      assert a + b == b;
    } else {
      assert (a + b)[0] == a[0];
      assert (a + b)[1..] == a[1..] + b;
      DispenseTargetsConcat(a[1..], b);
    }
  }

  lemma {:induction false} AspirateVolumesConcat(a: seq<Op>, b: seq<Op>)
    ensures AspirateVolumes(a + b) == AspirateVolumes(a) + AspirateVolumes(b)
  {
    if a == [] {
      assert a + b == b;
    } else {
      assert (a + b)[0] == a[0];
      assert (a + b)[1..] == a[1..] + b;
      AspirateVolumesConcat(a[1..], b);
    }
  }

  lemma SumPair(a: int, b: int)
    ensures Sum([a, b]) == a + b
  {
    assert [a, b][1..] == [b];
    assert [b][1..] == [];
    assert Sum([b]) == b;
  }

  /** A run of module actions, one operation each. */
  function Modules(steps: seq<ModuleStep>): (r: seq<Op>)
    ensures |r| == |steps| && forall t :: 0 <= t < |steps| ==> r[t] == Module(steps[t])
  {
    if steps == [] then [] else [Module(steps[0])] + Modules(steps[1..])
  }

  /** Module actions neither pause nor move liquid. */
  lemma {:induction false} ModulesCount(steps: seq<ModuleStep>, k: OpKind)
    ensures CountKind(Modules(steps), k) == if k == ModuleKind then |steps| else 0
  {
    if steps != [] {
      SingleOp(Module(steps[0]));
      CountConcat([Module(steps[0])], Modules(steps[1..]), k);
      ModulesCount(steps[1..], k);
    }
  }

  lemma {:induction false} ModulesVolume(steps: seq<ModuleStep>, loc: Loc)
    ensures VolumeInto(Modules(steps), loc) == 0
  {
    if steps != [] {
      SingleVolume(Module(steps[0]), loc);
      VolumeConcat([Module(steps[0])], Modules(steps[1..]), loc);
      ModulesVolume(steps[1..], loc);
    }
  }

  lemma {:induction false} ModulesPauses(steps: seq<ModuleStep>)
    ensures Pauses(Modules(steps)) == []
  {
    if steps != [] {
      SingleOp(Module(steps[0]));
      PausesConcat([Module(steps[0])], Modules(steps[1..]));
      ModulesPauses(steps[1..]);
    }
  }

  lemma VolumeRegroup(a: seq<Op>, b: seq<Op>, c: seq<Op>, loc: Loc)
    ensures VolumeInto(a + b + c, loc) == VolumeInto(a, loc) + VolumeInto(b + c, loc)
  {
    assert a + b + c == a + (b + c);
    VolumeConcat(a, b + c, loc);
  }

  /** Peeling the first operation off. */
  lemma CountCons(op: Op, rest: seq<Op>, k: OpKind)
    ensures CountKind([op] + rest, k) == (if KindOf(op) == k then 1 else 0) + CountKind(rest, k)
  {
    assert ([op] + rest)[1..] == rest;
  }

  lemma VolumeCons(op: Op, rest: seq<Op>, loc: Loc)
    ensures VolumeInto([op] + rest, loc) == Delivered(op, loc) + VolumeInto(rest, loc)
  {
    assert ([op] + rest)[1..] == rest;
  }

  lemma SpottedCons(op: Op, rest: seq<Op>, loc: Loc)
    ensures SpottedOnto([op] + rest, loc) == Spotted(op, loc) + SpottedOnto(rest, loc)
  {
    assert ([op] + rest)[1..] == rest;
  }

  lemma DrawnCons(op: Op, rest: seq<Op>, loc: Loc)
    ensures DrawnFrom([op] + rest, loc) == Drawn(op, loc) + DrawnFrom(rest, loc)
  {
    assert ([op] + rest)[1..] == rest;
  }

  lemma PausesCons(op: Op, rest: seq<Op>)
    ensures Pauses([op] + rest) == (if op.Pause? then [op.message] else []) + Pauses(rest)
  {
    assert ([op] + rest)[1..] == rest;
  }

  /** 1 when `op` is of kind `k`. */
  function Ind(op: Op, k: OpKind): nat {
    if KindOf(op) == k then 1 else 0
  }

  /** Kind counts of a run of five operations. */
  lemma CountFive(o1: Op, o2: Op, o3: Op, o4: Op, o5: Op, k: OpKind)
    ensures CountKind([o1, o2, o3, o4, o5], k) == Ind(o1, k) + Ind(o2, k) + Ind(o3, k) + Ind(o4, k) + Ind(o5, k)
  {
    var s4 := [o5];
    var s3 := [o4] + s4;
    var s2 := [o3] + s3;
    var s1 := [o2] + s2;
    assert [o1, o2, o3, o4, o5] == [o1] + s1;
    CountCons(o1, s1, k);
    CountCons(o2, s2, k);
    CountCons(o3, s3, k);
    CountCons(o4, s4, k);
    CountCons(o5, [], k);
    assert s4 == [o5] + [];
  }

  /** An operation followed by two runs. */
  lemma CountLead(op: Op, d: seq<Op>, r: seq<Op>, k: OpKind)
    ensures CountKind([op] + d + r, k) == Ind(op, k) + CountKind(d, k) + CountKind(r, k)
  {
    var x := [op] + d;
    CountCons(op, d, k);
    CountConcat(x, r, k);
  }

  /** A run held between a first and a last operation. */
  lemma CountBracket(first: Op, mid: seq<Op>, last: Op, k: OpKind)
    ensures CountKind([first] + mid + [last], k) == Ind(first, k) + CountKind(mid, k) + Ind(last, k)
  {
    var x := [first] + mid;
    CountCons(first, mid, k);
    CountConcat(x, [last], k);
    CountCons(last, [], k);
    assert [last] + [] == [last];
  }

  /** Holding one tip around a run adds no aspiration, dispense or pause to it. */
  lemma TipBracket(p: Pipette, mid: seq<Op>)
    ensures AspirateVolumes([PickUpTip(p)] + mid + [DropTip(p)]) == AspirateVolumes(mid)
    ensures DispenseTargets([PickUpTip(p)] + mid + [DropTip(p)]) == DispenseTargets(mid)
    ensures Pauses([PickUpTip(p)] + mid + [DropTip(p)]) == Pauses(mid)
  {
    var up, down := [PickUpTip(p)], [DropTip(p)];
    SingleOp(PickUpTip(p));
    SingleOp(DropTip(p));
    var x := up + mid;
    AspirateVolumesConcat(up, mid);
    AspirateVolumesConcat(x, down);
    DispenseTargetsConcat(up, mid);
    DispenseTargetsConcat(x, down);
    PausesConcat(up, mid);
    PausesConcat(x, down);
  }

  /** ... and delivers nothing. */
  lemma TipBracketVolume(p: Pipette, mid: seq<Op>, loc: Loc)
    ensures VolumeInto([PickUpTip(p)] + mid + [DropTip(p)], loc) == VolumeInto(mid, loc)
  {
    var up, down := [PickUpTip(p)], [DropTip(p)];
    SingleVolume(PickUpTip(p), loc);
    SingleVolume(DropTip(p), loc);
    var x := up + mid;
    VolumeConcat(up, mid, loc);
    VolumeConcat(x, down, loc);
  }

  /** An aspiration followed by two runs adds its volume in front of their aspirations ... */
  lemma LeadAspirate(p: Pipette, v: int, src: Loc, d: seq<Op>, r: seq<Op>)
    ensures AspirateVolumes([Aspirate(p, v, src)] + d + r) == [v] + AspirateVolumes(d) + AspirateVolumes(r)
  {
    var a := [Aspirate(p, v, src)];
    assert a[1..] == [];
    var x := a + d;
    AspirateVolumesConcat(a, d);
    AspirateVolumesConcat(x, r);
  }

  /** ... and neither dispenses ... */
  lemma LeadAspirateTargets(p: Pipette, v: int, src: Loc, d: seq<Op>, r: seq<Op>)
    ensures DispenseTargets([Aspirate(p, v, src)] + d + r) == DispenseTargets(d) + DispenseTargets(r)
  {
    var a := [Aspirate(p, v, src)];
    assert a[1..] == [];
    var x := a + d;
    DispenseTargetsConcat(a, d);
    DispenseTargetsConcat(x, r);
  }

  /** ... nor pauses. */
  lemma LeadAspiratePauses(p: Pipette, v: int, src: Loc, d: seq<Op>, r: seq<Op>)
    ensures Pauses([Aspirate(p, v, src)] + d + r) == Pauses(d) + Pauses(r)
  {
    var a := [Aspirate(p, v, src)];
    assert a[1..] == [];
    var x := a + d;
    PausesConcat(a, d);
    PausesConcat(x, r);
  }

  lemma SingleOp(op: Op)
    ensures CountKind([op], KindOf(op)) == 1
    ensures forall k :: k != KindOf(op) ==> CountKind([op], k) == 0
    ensures Pauses([op]) == if op.Pause? then [op.message] else []
    ensures DispenseTargets([op]) == if op.Dispense? then [op.dest] else []
    ensures AspirateVolumes([op]) == if op.Aspirate? then [op.volume] else []
  {
    assert [op][1..] == [];
  }

  lemma SinglePause(message: string)
    ensures Pauses([Pause(message)]) == [message]
  {
    assert [Pause(message)][1..] == [];
  }

  lemma SingleVolume(op: Op, loc: Loc)
    ensures VolumeInto([op], loc) == Delivered(op, loc)
  {
    assert [op][1..] == [];
  }
}
