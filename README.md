# MoClo assembly protocol generator — a Dafny model

This project models a protocol generator for an Opentrons OT-2 liquid-handling robot. It covers Golden Gate (MoClo) DNA assembly, transformation and plating. The system has two parts:

- **The input normaliser** (`streamlit_app/app.py`). It turns three uploaded tables into the two values the protocol reads:
  - a dictionary of plate maps (part names laid out on a 96-well plate and on a 24-tube rack);
  - a list of combinations (a reaction name and the parts it joins).

  It rejects more than 96 combinations. It lays the combination names out as the reaction plate map. It writes the protocol file: two assignment lines in front of a template text.
- **The protocol template** (`template_files/template_BsmbI_moclo_protocol_EP_tubes.py`). It runs on the robot and performs these steps in order:
  1. sets the thermocycler up;
  2. looks up each part's source well (`find_dna`) and each combination's reaction well (`find_combination`);
  3. inverts the combination list into a part → combinations dictionary;
  4. pre-fills every reaction well with buffer mix and water;
  5. for each part, fans it out to its reaction wells, in batches of at most ten wells per aspiration, with a rinse between batches;
  6. pauses for the operator around the assembly and heat-shock programs and adds competent cells;
  7. spots each reaction onto an agar plate, asking for a fresh agar plate when the wells run out.

In the model, the robot's calls become values of `RobotOps.Op`: pick-up, drop, aspirate, dispense, mix, blow-out, consolidate, transfer, distribute, pause and thermocycler/temperature-module actions. Each imperative loop of the source is a method. The method appends to an operation sequence and is proved equal to a specification function. The properties of the run are lemmas about those functions. They use measures over operation sequences:

- the count of each kind;
- `VolumeInto`: the µL delivered into a place by dispense, consolidate and transfer. It counts inflow only; nothing drawn out is subtracted;
- `SpottedOnto`: the tenths of a µL a distribute puts onto a place;
- `DrawnFrom`: the tenths of a µL a distribute draws out of its source, the disposal volume included;
- the pause messages;
- the dispense targets;
- the aspirated volumes.

A run that raises is an `Emission(ops, failure)`. It holds the operations emitted before the error and the error itself.

Modules, one concept each:

- `Wrappers` — Option and Result, and sequence flattening.
- `Tables` — cells, rows, combinations, plate maps.
- `RobotOps` — the operations and the measures over them.
- `PartLookup` — `find_dna`, `find_combination`.
- `PartAdjacency` — `combinations_by_part`.
- `Transfers` — pre-fill, batches, fan-out.
- `Stages` — the stage programs, competent cells, plating, the whole run.
- `InputNormaliser` — `process_plate_map_df`, `generate_plate_maps`, `generate_combinations`, `check_number_of_combinations`.
- `OutputPlateMap` — the list-building part of `generate_and_save_output_plate_maps`.
- `ProtocolText` — `create_protocol`.

Units:

- Volumes are whole µL.
- The plating volumes (4.5 µL per spot, 1.5 µL disposal) are in tenths of a µL.
- The agar spot offsets are in tenths of a millimetre.

Behaviour worth knowing:

- **Errors mid-run.** A part that cannot be found makes the template raise inside its part loop. By then the set-up, the pre-fill and the earlier parts' transfers have already been emitted. `Stages.ProtocolStopsAt` states what is emitted.
- **Duplicate and malformed rows.** `find_dna` returns the first match in dictionary, row and column order. Nothing rejects a part named twice or a ragged row. Rows are kept or dropped on their first cell alone.
- **Combination names.** Nothing checks that combination names are unique, and `find_combination` returns the first match. The 10 µL-per-well results therefore assume distinct names (`Tables.DistinctNames`).
- **Labware by key position.** The template loads labware by KEY POSITION: the first key gets the 96-well plate, the second the 24-tube rack. With fewer than two keys it fails on the key list (`TooFewPlateMaps`). A part found under any later key has no labware (`NoLabware`). The well formula is chosen by key NAME, and a key that is neither recognised name leaves the well number unset (`UnrecognisedPlateName`).
- **Agar plate size.** The plating loop takes the agar well count `a` as a parameter. The run uses the 12 wells of the labware the template loads.

## Model

| member | source | states |
|---|---|---|
| PartLookup.FormatOf | template_files/template_BsmbI_moclo_protocol_EP_tubes.py:56-59 | a key selects a well formula exactly when it is `fixed_input_dna_map` or `customised_input_dna_map` |
| PartLookup.FirstMatch | template_files/template_BsmbI_moclo_protocol_EP_tubes.py:52-55 | the result is the first position holding the name in plate, row, column order; no result means the name is nowhere |
| PartLookup.FindDna | template_files/template_BsmbI_moclo_protocol_EP_tubes.py:50-61 | fails with PartNotFound exactly when the name is in no plate map; a success is a well of labware 0 or 1 within its well count |
| PartLookup.FindDnaAt | template_files/template_BsmbI_moclo_protocol_EP_tubes.py:52-60 | for a first occurrence at (row, col): 8*col+row on the fixed plate, 4*col+row on the rack, and NoLabware / UnrecognisedPlateName / WellOutOfRange otherwise |
| PartLookup.FindDnaSound | template_files/template_BsmbI_moclo_protocol_EP_tubes.py:52-60 | a successful lookup is the formula of a recognised key applied to the first occurrence |
| PartLookup.FixedPlateExample | template_files/template_BsmbI_moclo_protocol_EP_tubes.py:57 | fixed plate, row 2, column 1 gives well 10 |
| PartLookup.CustomisedRackExample | template_files/template_BsmbI_moclo_protocol_EP_tubes.py:59 | customised rack, row 1, column 3 gives tube 13 |
| PartLookup.FindCombination | template_files/template_BsmbI_moclo_protocol_EP_tubes.py:64-69 | returns the first index whose name matches; CombinationNotFound exactly when no combination has the name |
| PartLookup.FindCombinationDistinct | template_files/template_BsmbI_moclo_protocol_EP_tubes.py:66-68 | with distinct names, combination i is found at reaction well i |
| PartAdjacency.FirstAppearancesSpec | template_files/template_BsmbI_moclo_protocol_EP_tubes.py:75-78 | the dictionary keys are distinct, are exactly the parts used, and come in order of first use |
| PartAdjacency.CombinationsByPart | template_files/template_BsmbI_moclo_protocol_EP_tubes.py:71-78 | the nested loop builds keys in first-use order, a map defined exactly on them, and for each part the combination names that use it, one per occurrence, in input order |
| PartAdjacency.ByPartSpec | template_files/template_BsmbI_moclo_protocol_EP_tubes.py:71-78 | keys distinct and exactly the parts used, in first-use order; the lists together are a permutation of the occurrences' names, and their lengths sum to the number of part entries |
| PartAdjacency.ByPartExample | template_files/template_BsmbI_moclo_protocol_EP_tubes.py:71-78 | a worked example of the dictionary, with a duplicated part |
| Transfers.PreFill | template_files/template_BsmbI_moclo_protocol_EP_tubes.py:81-89 | the pre-fill loop emits one pick-up, one consolidation per reaction in order, one drop |
| Transfers.PreFillCount | template_files/template_BsmbI_moclo_protocol_EP_tubes.py:81-89 | exactly one tip pick-up and one drop for the whole pass, one consolidation per reaction, nothing else |
| Transfers.PreFillVolume | template_files/template_BsmbI_moclo_protocol_EP_tubes.py:83-87 | reaction well i receives 2 + (8 - N) µL, N its number of parts; wells past the last reaction receive nothing |
| Transfers.BatchesSpec | template_files/template_BsmbI_moclo_protocol_EP_tubes.py:96-102 | the batches joined end to end give back the target list; there are ceil(k/10) of them, each 1 to 10 long, all but the last exactly 10 |
| Transfers.TransferPart | template_files/template_BsmbI_moclo_protocol_EP_tubes.py:95-110 | the `while` loop over the resliced list emits pick-up, the batch blocks, drop |
| Transfers.TransferBatch | template_files/template_BsmbI_moclo_protocol_EP_tubes.py:103-109 | one batch: a single aspiration of 1 µL per well, one 1 µL dispense per well in order, and the mix and blow-out rinse only when wells remain |
| Transfers.PartTransferAspirations | template_files/template_BsmbI_moclo_protocol_EP_tubes.py:103 | one aspiration per batch, of the batch's size, each between 1 and 10 |
| Transfers.PartTransferTargets | template_files/template_BsmbI_moclo_protocol_EP_tubes.py:104-105 | the dispenses go to the target wells, in order, one each |
| Transfers.PartTransferCount | template_files/template_BsmbI_moclo_protocol_EP_tubes.py:95-110 | one pick-up and one drop, ceil(k/10) aspirations, k dispenses, and ceil(k/10)-1 mixes and blow-outs (rinses only between batches) |
| Transfers.PartTransferVolume | template_files/template_BsmbI_moclo_protocol_EP_tubes.py:103-105 | each reaction well receives 1 µL per time it is listed |
| Transfers.PartTransferShape | template_files/template_BsmbI_moclo_protocol_EP_tubes.py:95-110 | the transfer starts with a pick-up and ends with a drop straight after a dispense: no rinse after the last batch |
| Transfers.PartTransferPauses | template_files/template_BsmbI_moclo_protocol_EP_tubes.py:95-110 | a part transfer never pauses |
| Transfers.ElevenWellsExample | template_files/template_BsmbI_moclo_protocol_EP_tubes.py:96-109 | 11 targets give batches of 10 and 1, aspirations of 10 and 1, one rinse |
| Transfers.CombinationWells | template_files/template_BsmbI_moclo_protocol_EP_tubes.py:94 | succeeds exactly when every name is found, and then lists find_combination's well for each name in order |
| Transfers.CombineParts | template_files/template_BsmbI_moclo_protocol_EP_tubes.py:92-110 | the part loop emits what the fan-out specification emits and stops with the same error |
| Transfers.FanOutAt | template_files/template_BsmbI_moclo_protocol_EP_tubes.py:92-110 | the part loop at item k: a failed find_dna or find_combination stops it with that error and nothing more emitted; otherwise the part's transfer is followed by the rest of the loop |
| Transfers.FanOutStops | template_files/template_BsmbI_moclo_protocol_EP_tubes.py:92-94 | a fan-out stopped at part f keeps exactly the earlier parts' operations and reports find_dna's error for part f |
| Transfers.FanOutCompletes | template_files/template_BsmbI_moclo_protocol_EP_tubes.py:92-94 | the fan-out completes exactly when find_dna succeeds for every part |
| Transfers.FanOutTips | template_files/template_BsmbI_moclo_protocol_EP_tubes.py:95-110 | at most one tip per part, exactly one pick-up and one drop per part on success, no pause |
| Transfers.FanOutVolume | template_files/template_BsmbI_moclo_protocol_EP_tubes.py:104-105 | a completed fan-out delivers into reaction i 1 µL per listing of its name |
| Transfers.ReactionVolumes | template_files/template_BsmbI_moclo_protocol_EP_tubes.py:83-105 | with distinct names, pre-fill and fan-out together put 2 + (8-N) + N = 10 µL into every reaction well |
| Transfers.ByPartWellsResolve | template_files/template_BsmbI_moclo_protocol_EP_tubes.py:94 | find_combination never fails on the dictionary's names |
| Transfers.ByPartFanOutCompletes | template_files/template_BsmbI_moclo_protocol_EP_tubes.py:71-94 | the loop over the dictionary completes exactly when find_dna succeeds for every part any combination lists |
| Stages.AssemblyProgramPauses | template_files/template_BsmbI_moclo_protocol_EP_tubes.py:113-127 | the operator is asked to seal before the assembly program and to remove the seal after it |
| Stages.HeatShockProgramPauses | template_files/template_BsmbI_moclo_protocol_EP_tubes.py:136-149 | the operator is asked to reseal before the heat shock and to unseal for plating after it |
| Stages.FixedStageVolumes | template_files/template_BsmbI_moclo_protocol_EP_tubes.py:27-28 | set-up, the thermal programs and the final deactivation move no liquid |
| Stages.AddCompetentCells | template_files/template_BsmbI_moclo_protocol_EP_tubes.py:130-135 | the loop emits each reaction's competent-cell step in order |
| Stages.CompetentCellsVolume | template_files/template_BsmbI_moclo_protocol_EP_tubes.py:132 | every reaction well receives 50 µL of cells, and no other place receives anything |
| Stages.CompetentCellsCount | template_files/template_BsmbI_moclo_protocol_EP_tubes.py:130-135 | one fresh 300 µL tip, one transfer, one mix and one blow-out per reaction |
| Stages.SpotLayout | template_files/template_BsmbI_moclo_protocol_EP_tubes.py:157-163 | the spots of an agar well are 13 distinct places over that well, each within 8 mm of its centre |
| Stages.SpotHits | template_files/template_BsmbI_moclo_protocol_EP_tubes.py:157-163 | the spot list of a well lists each of that well's 13 spots exactly once and no other place |
| Stages.PlateOnAgar | template_files/template_BsmbI_moclo_protocol_EP_tubes.py:152-182 | the two-branch plating loop emits the plating specification for n reactions and a wells |
| Stages.PlatingPauses | template_files/template_BsmbI_moclo_protocol_EP_tubes.py:167-169 | plating pauses (n-1) div a times, every time to ask for a new agar plate |
| Stages.PlatingStepPauses | template_files/template_BsmbI_moclo_protocol_EP_tubes.py:153-180 | one plating step pauses once, for a new agar plate, exactly when its reaction is past the first plate and a multiple of a; otherwise not at all |
| Stages.RolloversStep | template_files/template_BsmbI_moclo_protocol_EP_tubes.py:167-168 | plating one more reaction adds a plate change exactly when that reaction rolls over |
| Stages.RolloverWithinThreePlates | template_files/template_BsmbI_moclo_protocol_EP_tubes.py:167-168 | among the first 3a reactions only reactions a and 2a ask for a new plate |
| Stages.PlatingDistributions | template_files/template_BsmbI_moclo_protocol_EP_tubes.py:153-180 | the i-th distribution takes 4.5 µL per spot from reaction i onto agar well i mod a, one per reaction |
| Stages.PlatingCount | template_files/template_BsmbI_moclo_protocol_EP_tubes.py:153-182 | one tip, mix, distribution and blow-out per reaction, one pause per plate change |
| Stages.PlatingVolume | template_files/template_BsmbI_moclo_protocol_EP_tubes.py:153-182 | plating dispenses, consolidates and transfers nothing anywhere: its only deliveries are the distributes |
| Stages.PlatingSpotted | template_files/template_BsmbI_moclo_protocol_EP_tubes.py:157-180 | plating puts 4.5 µL onto each of the 13 spots of agar well w once per reaction plated onto it, and nothing onto any other place |
| Stages.PlatedOnWellCount | template_files/template_BsmbI_moclo_protocol_EP_tubes.py:153-180 | agar well w < a receives ceil((n - w) / a) of the n reactions: one per plate the run reaches that far |
| Stages.PlatingDrawn | template_files/template_BsmbI_moclo_protocol_EP_tubes.py:157-180 | plating draws 13 × 4.5 + 1.5 = 60 µL out of each of the n reaction wells and nothing out of any other place |
| Stages.PlatingNoReuse | template_files/template_BsmbI_moclo_protocol_EP_tubes.py:167-173 | two reactions sent to the same agar well are separated by a plate change |
| Stages.ThirteenReactionsExample | template_files/template_BsmbI_moclo_protocol_EP_tubes.py:152-182 | 13 reactions on the 12-well plate: one change, reaction 12 on well 0 |
| Stages.OnePlateChange | template_files/template_BsmbI_moclo_protocol_EP_tubes.py:153-169 | more than a but at most 2a reactions give exactly one plate-change pause |
| Stages.TwoPlateChanges | template_files/template_BsmbI_moclo_protocol_EP_tubes.py:153-169 | more than 2a but at most 3a reactions give exactly two plate-change pauses |
| Stages.FirstOnNewPlate | template_files/template_BsmbI_moclo_protocol_EP_tubes.py:166-176 | with more than a reactions, reaction a is distributed onto well 0 of the new agar plate |
| Stages.SixWellPlateExample | template_files/template_BsmbI_moclo_protocol_EP_tubes.py:167-169 | with a = 6 and 13 reactions the changes come before reactions 6 and 12 only |
| Stages.BeforeFirstPauseConcat | template_files/template_BsmbI_moclo_protocol_EP_tubes.py:113 | the operations before the first pause are those preceding the seal pause |
| Stages.RunProtocol | template_files/template_BsmbI_moclo_protocol_EP_tubes.py:13-183 | the template's run emits the whole specification: set-up, pre-fill, fan-out, stage programs, cells, plating, finish, or stops with the first error |
| Stages.AssemblyOpsPauses | template_files/template_BsmbI_moclo_protocol_EP_tubes.py:27-110 | nothing before the seal pause pauses |
| Stages.ProtocolCompletes | template_files/template_BsmbI_moclo_protocol_EP_tubes.py:40-94 | the run completes exactly when there are two plate maps and every part used is found by find_dna |
| Stages.ProtocolFailure | template_files/template_BsmbI_moclo_protocol_EP_tubes.py:40-43 | the run completes exactly when there are at least two plate maps and the part loop completes |
| Stages.ProtocolStopsAt | template_files/template_BsmbI_moclo_protocol_EP_tubes.py:92-94 | a run stopped at part f keeps set-up, pre-fill and the earlier parts' transfers, reports part f's error and never pauses |
| Stages.LaterStagesPauses | template_files/template_BsmbI_moclo_protocol_EP_tubes.py:113-183 | after the fan-out: seal, unseal, reseal, unseal pauses in that order, then the plate changes |
| Stages.LaterStagesVolume | template_files/template_BsmbI_moclo_protocol_EP_tubes.py:113-183 | after the fan-out, dispense, consolidate and transfer only bring the 50 µL of cells into each reaction well |
| Stages.ProtocolPauses | template_files/template_BsmbI_moclo_protocol_EP_tubes.py:113-169 | a completed run pauses 4 + (n-1) div 12 times: the four stage pauses in order, then only plate changes |
| Stages.AssemblyVolume | template_files/template_BsmbI_moclo_protocol_EP_tubes.py:27-110 | everything before the seal pause puts 10 µL into every reaction well |
| Stages.ProtocolVolumes | template_files/template_BsmbI_moclo_protocol_EP_tubes.py:83-135 | 10 µL into each reaction well by the first pause, 60 µL of inflow by the end; plating then draws the same 60 µL back out (`Stages.PlatingDrawn`) |
| InputNormaliser.ProcessPlateMapDf | streamlit_app/app.py:12-18 | the row loop returns the keyed rows of the table |
| InputNormaliser.KeyedRowsConcat | streamlit_app/app.py:14-17 | filtering distributes over concatenation: rows keep their order |
| InputNormaliser.KeyedRowsSingle | streamlit_app/app.py:16-17 | a single row is kept, unchanged, exactly when its first cell is present |
| InputNormaliser.KeyedRowsMembers | streamlit_app/app.py:12-18 | a row is in the result if and only if it is a row of the table whose first cell is present |
| InputNormaliser.KeyedRowsIdempotent | streamlit_app/app.py:12-18 | processing a processed map changes nothing |
| InputNormaliser.GeneratePlateMaps | streamlit_app/app.py:21-33 | exactly two entries, "PlateMap1" then "PlateMap2", from the first and the second table |
| InputNormaliser.AsWrittenLookupFails | streamlit_app/app.py:26-30 | over those maps find_dna only ever answers PartNotFound or UnrecognisedPlateName |
| InputNormaliser.PartInOccurrences | template_files/template_BsmbI_moclo_protocol_EP_tubes.py:72-74 | every part a combination lists is among the parts the fan-out visits |
| InputNormaliser.AsWrittenProtocolFails | streamlit_app/app.py:21-33 | a run over those maps fails whenever any combination lists a part |
| InputNormaliser.GenerateTaggedPlateMaps | streamlit_app/app.py:21-33 | the corrected maps: the same two entries under the two recognised keys, fixed plate first |
| InputNormaliser.TaggedLookup | template_files/template_BsmbI_moclo_protocol_EP_tubes.py:56-60 | over the corrected maps find_dna gives 8*col+row on the plate and 4*col+row on the rack, or WellOutOfRange |
| InputNormaliser.PresentTextsMembers | streamlit_app/app.py:43 | a value is among the parts if and only if some remaining cell holds it |
| InputNormaliser.PresentTextsConcat | streamlit_app/app.py:43 | the comprehension keeps the cells' order |
| InputNormaliser.PresentTextsAllPresent | streamlit_app/app.py:43 | without missing cells every value is kept, position for position |
| InputNormaliser.GenerateCombinations | streamlit_app/app.py:36-46 | the row loop returns the record specification of the table |
| InputNormaliser.CombinationsOfKeyedRows | streamlit_app/app.py:36-46 | one record per row with a present first cell, in order: name is that cell, parts the remaining present cells; never longer than the input |
| InputNormaliser.CombinationExample | streamlit_app/app.py:40-45 | a worked table with a missing part cell and an unkeyed row |
| InputNormaliser.CheckNumberOfCombinations | streamlit_app/app.py:49-54 | an error, carrying the count, if and only if more than 96 combinations are requested |
| OutputPlateMap.PairColumns | streamlit_app/app.py:60-67 | ceil(n/2) columns; column k holds names 2k and 2k+1, the last a single name when n is odd |
| OutputPlateMap.ColumnBeyond | streamlit_app/app.py:72-76 | no row of the result lies past the longest input row |
| OutputPlateMap.Transpose | streamlit_app/app.py:70-76 | as many result rows as the longest column; row j collects entry j of every column that has one, in order |
| OutputPlateMap.ColumnsOfPairs | streamlit_app/app.py:60-76 | transposing the paired columns gives the even names, then the odd names |
| OutputPlateMap.GenerateOutputPlateMap | streamlit_app/app.py:58-76 | the plate map is the reference layout of the combination names |
| OutputPlateMap.LayoutShape | streamlit_app/app.py:70-76 | at most two rows, of ceil(n/2) and floor(n/2) names; empty for n = 0, [[name0]] for n = 1 |
| OutputPlateMap.LayoutCells | streamlit_app/app.py:70-76 | row r, column c holds name 2c + r |
| OutputPlateMap.LayoutPlacesEveryName | streamlit_app/app.py:70-76 | name i is at row i mod 2, column i div 2 |
| OutputPlateMap.EvensOddsPermutation | streamlit_app/app.py:70-76 | the even and the odd names together are a permutation of the names |
| OutputPlateMap.LayoutPermutation | streamlit_app/app.py:58-76 | read row by row the layout holds every name exactly as often as the input |
| OutputPlateMap.FourNamesExample | streamlit_app/app.py:58-76 | A, B, C, D give [[A, C], [B, D]] |
| ProtocolText.CreateProtocol | streamlit_app/app.py:88-97 | the text starts with the plate-map header and ends with the template unchanged |
| ProtocolText.CreateProtocolFields | streamlit_app/app.py:93-95 | the header, encoded plate maps, blank line, second header, encoded combinations, blank line and the template sit at fixed offsets in that order |
| ProtocolText.CreateProtocolKeepsTemplate | streamlit_app/app.py:95 | two texts with the same encodings are equal if and only if their templates are |

## Left out

- The web UI, session state and the upload flow (`main`, `reset_state`, streamlit_app/app.py:99-178) are not part of this model. They only call the modelled functions.
- CSV reading (`pd.read_csv`, streamlit_app/app.py:128-130) and the `csv.writer` serialisation (streamlit_app/app.py:78-85) are library I/O. Tables enter as rows of cells, with NaN as `Missing`. The output map stops at its list of rows.
- Cell values are text. pandas may read a cell as a number; the model has no cell types.
- A row of width zero is treated as having no first cell and is dropped. pandas never produces one.
- `json.dumps` and UTF-8 decoding (streamlit_app/app.py:90, 93-94) are foreign calls. `ProtocolText.CreateProtocol` takes the two encoders as function parameters and the template as already-decoded text.
- Loading labware, modules and pipettes (template lines 16-46) is vendor API. Labware enters only as the well counts 96 and 24 by key position, and the agar plate as its 12 wells.
- The operations are abstract records. Their physical meaning is not modelled: tip use, well heights (`bottom(z=0.5)`), liquid behaviour, and pipette ranges such as `8 - N` going negative when a combination has more than 8 parts.
- The thermal profiles are kept as constant step lists in the order the template runs them, with their repetitions and block volumes. Nothing about temperature is modelled.
- `RobotOps.VolumeInto` counts what dispense, consolidate and transfer deliver, and never subtracts what is aspirated or drawn. Distributes are measured apart, in tenths of a µL, by `SpottedOnto` and `DrawnFrom`. So no lemma states the liquid left in a well, and the agar spots are not told apart by plate: `SpottedOnto` sums over every agar plate used.
- The floating-point plating values are scaled to integer tenths: spot offsets ±5.5 mm and the 4.5 / 1.5 µL distribute volumes. No geometry is modelled.
- Stages.RunProtocol: it requires at most 96 combinations. The app rejects more before writing the protocol (`InputNormaliser.CheckNumberOfCombinations`). So the template's own failure on a 97th reaction well is not modelled, and the fan-out's reaction wells are not range-checked.
- Transfers.ReactionVolumes: the 10 µL per well is stated for distinct combination names only. With a repeated name, `find_combination` sends every listing to the first such well.
- Transfers.AppendAssoc, the `Cons`/`Concat`/`Lead`/`Bracket` lemmas, `HitsDistinct` and `MeasureLengths` of `RobotOps`, and the arithmetic and sequence-shape lemmas of `Stages` (`DivStep`, `DivUnique`, `ResidueShift`, `SpotOffsets`, `BracketedPauses`, `InterleavedPauses`, `FivePiecePauses`, `JoinPairs`) are proof helpers with no counterpart in the source.

## Findings

| source | as written | input that shows it | evidently intended | confidence | as-written member | corrected member |
|---|---|---|---|---|---|---|
| streamlit_app/app.py:26-30 | the app keys the two plate maps "PlateMap1" and "PlateMap2", but the template picks its well formula only for the keys `fixed_input_dna_map` and `customised_input_dna_map` (template lines 56-59) | any combination file in which a combination lists a part: the part is found under "PlateMap1" or "PlateMap2", no formula applies and the well number is never assigned, or the part is missing altogether; either way the run stops before the assembly program | key the fixed plate map `fixed_input_dna_map` and the customised one `customised_input_dna_map`, so find_dna applies 8*col+row and 4*col+row | high, not executed | InputNormaliser.GeneratePlateMaps, InputNormaliser.AsWrittenProtocolFails | InputNormaliser.GenerateTaggedPlateMaps, InputNormaliser.TaggedLookup |
