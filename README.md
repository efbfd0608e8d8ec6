# TheIA validation core in Dafny

This project models the core of a validation tool. The tool compares GENIE generator events (the
"input" trees) with the RATPAC detector simulation of the same events (the "output" trees), one
file pair ("shard") at a time, for up to eight neutrino-flavour categories. For each pair of
matched events it compares the two kinetic-energy lists and fills per-category histograms. It
counts anomalies in a run-wide statistics record. It can also draw an event display: sensor
geometry, six detector faces and an information panel.

Modules, in dependency order:

- `Wrappers`: an `Option` type.
- `Text`: `%d` and `%0Nd` decimal formatting, and its parser.
- `Maps`: building a `std::map` by `m[k] = v` over two columns.
- `Sums`: the plain left-to-right sum of a list of `double`s.
- `Config`: the run configuration, as a value:
  - default parameters;
  - the category labels;
  - timestamp formatting;
  - single-field setters.
- `Stats`: the `Statistics` class, whose 17 counters are fields, plus the summary block.
- `Kinematics`: the kinetic energy of a generator particle.
- `Histograms`: the `HistogramManager` class.
  - A histogram array element is a slot of a map. An absent key is a null pointer.
  - Each bucket is its fixed name and binning plus the multiset of points it has received.
  - Each `Fill*` method is proved equal to a pure function `Apply` of a recorded `FillCall`.
- `Geometry`: bounding box, face classification chain, face frames and projections.
- `Display`: the `EventDisplay` class.
  - Geometry loading, the face assignment, the per-face fills and `CreateDisplay`'s guards.
  - The hit map, the energy sum, the particle listing and the output file name.
  - A drawn display is the data the canvas would show.
- `Processor`: the `EventProcessor` class.
  - `ProcessFile` is the alignment loop, with `continue` and `break`. Output entry `i` of shard
    `f` is paired with input entry `f*100 + i + 1`.
  - `ProcessEvent` builds the two kinetic-energy lists, makes the fill calls, and bumps the
    mismatch counter.
  - The effect of a whole file on the histograms and counters is proved equal to a pure
    description built from the pairing function `Pairs`.

Where the code and its comments disagree, the model follows the code:

- src/EventProcessor.C:343-344 says output event 0 corresponds to input entry `file_nr*100`. Line
  345 computes `file_nr*100 + i + 1`; that is the pairing modelled.
- include/Config.h:41 declares `GetChunkName`, but src/Config.C:24 defines `GetFlavorName`. The
  defined mapping is modelled as `Config.FlavorName`.
- The information panel's "collected PEs" line prints `mcPMTNPE->size()` (src/EventDisplay.C:249).
  That is the number of hit sensors, not the sum of photoelectrons, and the model keeps the
  number of sensors.

## Model

| member | source | states |
|---|---|---|
| `Text.ZeroPad` | src/Config.C:19-21 | `%0Nd` of a natural number: all digits, width `max(N, digits)`, ending in the plain decimal |
| `Text.DecimalRoundTrip` | src/Config.C:19-21 | the `%d` rendering of a natural number parses back to that number |
| `Text.ZeroPadRoundTrip` | src/EventDisplay.C:304 | a zero-padded field parses back to the number it pads |
| `Text.DecimalLength` | src/Config.C:19-21 | a number in `[10^(k-1), 10^k)` is written with exactly k digits |
| `Maps.InsertAllKeys` | src/EventDisplay.C:64-70 | after `m[ks[i]] = vs[i]` for every i, the keys are the old keys plus every inserted key |
| `Maps.InsertAllLastWins` | src/EventDisplay.C:70 | a later duplicate key overwrites: each key holds the value at its last occurrence |
| `Maps.InsertAllUntouched` | src/EventDisplay.C:153-155 | a key never inserted keeps its old value |
| `Maps.InsertAllSource` | src/EventDisplay.C:153-155 | every stored value is one of the values inserted at that key, or the old one |
| `Config.Default` | src/Config.C:5-15 | the defaults: tolerance 0.001, distance cut 50, all three cuts on, debug and display off, half range 1000, 1000 Ediff bins, difference tolerance 0.001 |
| `Config.SetDebugMode` | include/Config.h:28 | the getter returns the value set; no other field changes |
| `Config.SetEventDisplayMode` | include/Config.h:29 | the getter returns the value set; no other field changes |
| `Config.SetCutNuFinal` | include/Config.h:30 | the field holds the value set; no other field changes |
| `Config.SetCutToWall` | include/Config.h:31 | the field holds the value set; no other field changes |
| `Config.SetCutEmatch` | include/Config.h:32 | the field holds the value set; no other field changes |
| `Config.SetETolerance` | include/Config.h:33 | the field holds the value set; no other field changes |
| `Config.SetDistanceCut` | include/Config.h:34 | the field holds the value set; no other field changes |
| `Config.FlavorName` | src/Config.C:24-37 | the label is non-empty exactly for categories 1..4; 0 and 5..8 get "" |
| `Config.FlavorNamesDistinct` | src/Config.C:25-33 | two categories with the same non-empty label are the same category |
| `Config.TwoDigits` | src/Config.C:19 | `%02d` of a value below 100 is exactly two characters |
| `Config.FieldsLayout` | src/Config.C:19-21 | a leading field followed by two `%02d` fields: the length adds 4, and each field reads back from its columns |
| `Config.ParseJoined` | src/Config.C:19 | an 8-digit date, `_`, and a 6-digit time make 15 characters with `_` at index 8 |
| `Config.TimestampLayout` | src/Config.C:17-22 | for a 4-digit year and fields below 100 the timestamp is 15 characters long, `_` at index 8, and parses back to the clock reading |
| `Stats.Statistics.Counters` | include/Statistics.h:8-25 | the 17 counters as one value; it equals all-zero exactly when every counter is 0 |
| `Stats.Statistics.constructor` | src/Statistics.C:5-7 | a fresh record has all 17 counters at 0 |
| `Stats.Statistics.Reset` | src/Statistics.C:9-27 | after Reset all 17 counters are 0 |
| `Stats.Statistics.ResetFileCounters` | src/Statistics.C:10-14 | the five file-level counters become 0 |
| `Stats.Statistics.ResetEventCounters` | src/Statistics.C:15-20 | the six event-level counters become 0 |
| `Stats.Statistics.ResetEnergyCounters` | src/Statistics.C:21-26 | the six energy-match counters become 0 |
| `Stats.Statistics.Summary` | src/Statistics.C:29-44 | the header names the chunk; six lines report the six counters in print order; only the KE-size-mismatch line can carry a share, relative to `n_total_entries`, present exactly when that total is positive, with percent × total = 100 × mismatches; it reads the counters and changes none |
| `Stats.PlainLine` | src/Statistics.C:46-48 | caption and raw count, never a percentage |
| `Stats.ShareLine` | src/Statistics.C:50-58 | a percentage exactly when requested and the total is positive (so never a division by zero), with percent × total = 100 × value |
| `Kinematics.CalculateKE` | src/EventProcessor.C:65-72 | with m the rest mass (m ≥ 0, m² = E² − p·p): (E − KE/1000)² = E² − p·p, and KE ≤ 1000·E |
| `Kinematics.RestMassUnique` | src/EventProcessor.C:68-69 | at most one non-negative root exists, so the kinetic energy is a function of the four-momentum |
| `Kinematics.KEAtRest` | src/EventProcessor.C:65-72 | with p = 0 and E ≥ 0 the kinetic energy is 0 |
| `Kinematics.KEBounds` | src/EventProcessor.C:65-72 | with E ≥ 0 and E² ≥ p·p the kinetic energy lies in [0, 1000·E] |
| `Kinematics.NoRestMassWhenSpaceLike` | src/EventProcessor.C:69 | when p·p > E² no rest mass exists (the original's square root is NaN there) |
| `Histograms.CreatedFamilies` | src/HistogramManager.C:40-175 | Initialize allocates every array except the PMT-charge one |
| `Histograms.AllocateGroup` | src/HistogramManager.C:44-50 | one loop iteration gives each array of the group a fresh bucket in category l, and leaves every other slot as it was |
| `Histograms.AllocatedCompose` | src/HistogramManager.C:40-175 | two allocation loops in sequence allocate the union of their groups |
| `Histograms.InitializeFacts` | src/HistogramManager.C:44-174 | after Initialize every created family has a fresh bucket in categories 1..8, Ediff has the configured bins over [−2, 2], and slot 0 and the PMT-charge array are unchanged (null on a fresh manager) |
| `Histograms.Put` | src/HistogramManager.C:213-215 | a guarded fill never creates or removes a bucket |
| `Histograms.PutAll` | src/HistogramManager.C:230-245 | a sequence of guarded fills never creates or removes a bucket |
| `Histograms.PutAllUnroll` | src/HistogramManager.C:230-245 | one to four guarded fills in a row are that many single fills, in order |
| `Histograms.PutAllClosed` | src/HistogramManager.C:230-245 | the fills into one category add to an existing bucket exactly the points named for its array |
| `Histograms.ApplyClosed` | src/HistogramManager.C:212-300 | one Fill* call adds its points for that array and category to an existing bucket, and keeps the set of buckets |
| `Histograms.ApplyAllClosed` | src/HistogramManager.C:212-300 | a sequence of calls adds, to each existing bucket, the multiset union of their contributions |
| `Histograms.ApplyAllKeys` | src/HistogramManager.C:212-300 | no sequence of fills creates or removes a bucket |
| `Histograms.FillGuards` | src/HistogramManager.C:213 | every Fill* is a no-op outside 1 ≤ dataset < 9, and on an all-null table |
| `Histograms.FillsBeforeInitialize` | src/HistogramManager.C:6-33 | before Initialize every pointer is null, so any sequence of fills changes nothing |
| `Histograms.PointsOfAbsent` | src/HistogramManager.C:212-300 | an array a call does not name receives nothing |
| `Histograms.PointsOfUnique` | src/HistogramManager.C:212-300 | an array a call names once receives exactly that one point |
| `Histograms.PointsOfDeposits` | src/HistogramManager.C:212-300 | with distinct arrays per call, each named array receives its one point and every other array nothing |
| `Histograms.ContributionAbsent` | src/HistogramManager.C:212-300 | a call that names no array of a slot contributes nothing to it |
| `Histograms.FillFrame` | src/HistogramManager.C:212-300 | a fill for category d changes no bucket of another category, and no bucket it does not name |
| `Histograms.PhotonsVsKEEntries` | src/HistogramManager.C:230-245 | FillPhotonsVsKE adds one point at the same KE to each of its four buckets: the total gets scint + cher + rem, the others their own counts; all other buckets are unchanged |
| `Histograms.LightYieldEntries` | src/HistogramManager.C:271-289 | FillLightYield adds (KE, nPE/KE) only for a positive total KE, and never touches the per-species buckets |
| `Histograms.EnergyResolutionEntries` | src/HistogramManager.C:291-300 | FillEnergyResolution adds (E_input, rel_diff) and rel_diff; the result does not depend on E_output |
| `Histograms.TotalAppend` | src/HistogramManager.C:212-300 | the points a slot receives from two consecutive call sequences are the union of each's |
| `Histograms.TotalSingle` | src/HistogramManager.C:212-300 | a one-call sequence contributes that call's points |
| `Histograms.TotalRemove` | src/HistogramManager.C:212-300 | the points of a sequence are one call's plus those of the rest |
| `Histograms.TotalPermutation` | src/HistogramManager.C:212-300 | reordering the calls does not change the points a slot receives |
| `Histograms.MatchLast` | src/HistogramManager.C:212-300 | the last call of a sequence occurs in any permutation of it, and removing both leaves permutations |
| `Histograms.FillOrderIndependent` | src/HistogramManager.C:212-300 | two orderings of the same fill calls leave the same histograms |
| `Histograms.ApplyAllSnoc` | src/HistogramManager.C:212-300 | one more call after a sequence is applied to the sequence's result |
| `Histograms.TotalSnoc` | src/HistogramManager.C:212-300 | one more call adds its own contribution |
| `Histograms.TotalOfFour` | src/EventProcessor.C:516-520 | four calls contribute the union of their four contributions |
| `Histograms.ApplyAllAppend` | src/HistogramManager.C:212-300 | applying two sequences in turn is applying their concatenation |
| `Histograms.HistogramManager.constructor` | src/HistogramManager.C:6-33 | every pointer of every array is null |
| `Histograms.HistogramManager.Initialize` | src/HistogramManager.C:40-175 | exactly categories 1..8 of every array but the PMT-charge one get a fresh bucket with its name and binning; every other slot is unchanged |
| `Histograms.HistogramManager.AllocateLoop` | src/HistogramManager.C:44-50 | `for (l = 1; l < NSAMPLES; l++)` allocates the group in categories 1..8 and nothing else |
| `Histograms.HistogramManager.FillSingleEnergies` | src/HistogramManager.C:212-216 | the new table is `Apply` of the call: (input KE, output KE) into the single-energy bucket when the category is valid and the bucket exists |
| `Histograms.HistogramManager.FillTotalEnergy` | src/HistogramManager.C:218-222 | the new table is `Apply` of the call: (input total, output total) when accepted |
| `Histograms.HistogramManager.FillEdiff` | src/HistogramManager.C:224-228 | the new table is `Apply` of the call: the difference into the Ediff bucket when accepted |
| `Histograms.HistogramManager.FillPhotonsVsKE` | src/HistogramManager.C:230-245 | the new table is `Apply` of the call: four points, each into its own buckets |
| `Histograms.HistogramManager.FillPEsVsKE` | src/HistogramManager.C:247-251 | the new table is `Apply` of the call: (KE, nPE) when accepted |
| `Histograms.HistogramManager.FillPositionResolution` | src/HistogramManager.C:254-261 | the new table is `Apply` of the call: dx, dy, dz, dr each into its own bucket |
| `Histograms.HistogramManager.FillParticleMatching` | src/HistogramManager.C:263-269 | the new table is `Apply` of the call: the three multiplicities into their buckets |
| `Histograms.HistogramManager.FillLightYield` | src/HistogramManager.C:271-289 | the new table is `Apply` of the call: (KE, nPE/KE) only for a positive KE |
| `Histograms.HistogramManager.FillEnergyResolution` | src/HistogramManager.C:291-300 | the new table is `Apply` of the call: (E_input, rel_diff) and rel_diff |
| `Histograms.HistogramManager.Fill` | src/HistogramManager.C:212-300 | dispatching a recorded call has exactly `Apply`'s effect |
| `Geometry.FaceIndex` | include/EventDisplay.h:48-53 | each face has an enum value below 6 |
| `Geometry.FaceAt` | include/EventDisplay.h:48-53 | the face of an enum value, inverse to FaceIndex |
| `Geometry.BoxOfContains` | src/EventDisplay.C:72-83 | every loaded position lies inside the running min/max box |
| `Geometry.BoxOfTight` | src/EventDisplay.C:72-83 | each of the six bounds is attained by some position, so the box is exactly the min/max |
| `Geometry.Tolerance` | src/EventDisplay.C:96-98 | `max(1e-3 (max − min), 1e-6)`: at least 1e-6, at least the relative tolerance, and one of the two |
| `Geometry.ClassifyFirstMatch` | src/EventDisplay.C:105-117 | a sensor lands on face f exactly when f's test matches and no earlier face's (ZP, ZM, XP, XM, YP, YM) does; on no face exactly when no test matches |
| `Geometry.TopCornerIsZP` | src/EventDisplay.C:105-106 | a sensor at zmax, in particular the (max, max, max) corner, lands on +Z |
| `Geometry.InteriorIsUnassigned` | src/EventDisplay.C:105-117 | a sensor further than the tolerance from every bound lands on no face |
| `Geometry.ProjectionInFrame` | src/EventDisplay.C:328-385 | each face projects onto the axis pair its frame spans, so a sensor inside the box is drawn inside the frame |
| `Display.Positions` | src/EventDisplay.C:65-68 | each stored position is the raw column value × 0.001, index by index |
| `Display.AscendingUnique` | src/EventDisplay.C:100-117 | two ascending lists with the same members are equal |
| `Display.VisitStep` | src/EventDisplay.C:100-117 | appending the next-larger id to the list of its face keeps the partial assignment |
| `Display.SmallestExists` | src/EventDisplay.C:100 | a non-empty set of ids has a least element, the next one `std::map` iteration visits |
| `Display.VisitStart` | src/EventDisplay.C:100 | before the loop: six empty lists, every sensor still to visit |
| `Display.VisitNext` | src/EventDisplay.C:100-117 | visiting the least remaining id keeps the loop invariant |
| `Display.VisitDone` | src/EventDisplay.C:100-118 | when no id remains the lists are the full face assignment |
| `Display.AssignFaces` | src/EventDisplay.C:95-119 | face list k holds, in ascending id order, exactly the sensors the classifier puts on face k |
| `Display.FaceAssignmentUnique` | src/EventDisplay.C:95-119 | the face assignment is unique for a geometry |
| `Display.FacesDisjoint` | src/EventDisplay.C:105-117 | no sensor is listed on two faces |
| `Display.FaceFillsSound` | src/EventDisplay.C:369-392 | every fill is a listed sensor with a position, at its projection, weighted by its hit count (0 without a hit), and inside the face's frame |
| `Display.SumPositive` | src/EventDisplay.C:236-239 | the deposited-energy total is never negative |
| `Display.SumPositiveSpec` | src/EventDisplay.C:236-239 | the total equals the plain sum when no energy is negative, and is never below the plain sum |
| `Display.EventFileNameLayout` | src/EventDisplay.C:303-304 | for 0 ≤ n < 10^6 the name is `./Plots/event_`, six digits that read back as n, then `.pdf` |
| `Display.InsertPermutes` | src/EventDisplay.C:278 | inserting a particle adds exactly that particle |
| `Display.TailSorted` | src/EventDisplay.C:278 | the tail of a descending list is descending and bounded by its head |
| `Display.ConsSorted` | src/EventDisplay.C:278 | a head at least as energetic as every element extends a descending list |
| `Display.InsertSorted` | src/EventDisplay.C:278 | insertion keeps a list sorted by descending kinetic energy |
| `Display.SortByKEDescendingSpec` | src/EventDisplay.C:278 | the sort yields a descending permutation of its input |
| `Display.BuildNpeMap` | src/EventDisplay.C:146-155 | the hit map is `m[id[i]] = npe[i]` in index order (later duplicates win) |
| `Display.TotalEdep` | src/EventDisplay.C:236-239 | the loop computes the sum of the positive energies |
| `Display.CollectParticles` | src/EventDisplay.C:262-276 | succeeds exactly when every non-null particle among the first k has readable columns, and then collects them in index order, skipping null ones |
| `Display.ListParticles` | src/EventDisplay.C:257-278 | the listing is the first min(npar_in, 4) particles sorted by descending KE (a permutation of them, not the top four overall); nothing without a truth record |
| `Display.PanelShowsIntro` | src/EventDisplay.C:146-304 | the parts of a panel together make what a drawn display shows |
| `Display.EventDisplay.constructor` | src/EventDisplay.C:19-21 | no geometry, not loaded, every bound −1 |
| `Display.EventDisplay.LoadGeometry` | src/EventDisplay.C:26-93 | fails, changing nothing, on a null file, a missing meta tree, a missing column or unequal lengths; otherwise stores every sensor in metres (last duplicate wins), sets the box to the running min/max of every row read, overwritten duplicates included (unchanged for an empty table), and marks the geometry loaded; `LoadEffect` holds of the old and new table, box and flag |
| `Display.EventDisplay.SetBox` | src/EventDisplay.C:72-83 | the six bound fields take the box's values |
| `Display.EventDisplay.AssignPMTsToFaces` | src/EventDisplay.C:95-119 | face list k holds, in ascending id order, exactly the loaded sensors classified onto face k |
| `Display.EventDisplay.DrawFace` | src/EventDisplay.C:320-392 | the face's frame (bins and ranges) and one fill per listed sensor with a position, at its projection, with its hit count or 0 |
| `Display.EventDisplay.CreateDisplay` | src/EventDisplay.C:121-318 | skipped, in order, without geometry, without photoelectrons (null or empty), or without a matching hit-id column; otherwise faulted exactly when a column the panel reads is missing or too short; otherwise the drawn panel shows the hit map, the face assignment, the six plots in draw order, the energy total, the scintillation, Cherenkov and re-emitted photon counts each on its own (their total line is `Photons.Total`), the vertex in metres, the sorted listing, the not-listed count and the file name |
| `Display.EventDisplay.DrawPanel` | src/EventDisplay.C:161-304 | faulted exactly when a read column is missing; drawn otherwise, with what the display shows |
| `Display.EventDisplay.ComposePanel` | src/EventDisplay.C:161-304 | each part of the panel, from its inputs |
| `Display.EventDisplay.DrawFaces` | src/EventDisplay.C:211-219 | the six faces drawn in the order ZP, ZM, XP, XM, YP, YM, each from its own list |
| `Processor.FinalIndicesSpec` | src/EventProcessor.C:388-390 | the indices kept are exactly the status-1 particles among the first StdHepN, in increasing order |
| `Processor.InputKEsIndexed` | src/EventProcessor.C:388-430 | the input list holds CalculateKE of exactly the status-1 particles, in index order |
| `Processor.OutputListSpec` | src/EventProcessor.C:451-485 | the output list is the first mcparticlecount values of mckes, or empty when mckes is null |
| `Processor.PairFillsIndexed` | src/EventProcessor.C:488-491 | one single-energy fill per index, with the index-matched pair |
| `Processor.EventFillsShape` | src/EventProcessor.C:488-520 | the pair fills only when the lengths agree, then exactly one each of the total, photon, PE and difference fills; totals are 0 unless both lists are non-empty; the difference is input minus output total; the PE sum is 0 unless both PE columns are present |
| `Processor.PairFillsTotal` | src/EventProcessor.C:488-491 | the single-energy fills add the index-matched pairs to the single-energy bucket of an accepted category and nothing elsewhere |
| `Processor.SingleContribution` | src/EventProcessor.C:490 | one single-energy fill adds its pair to its own bucket only |
| `Processor.EventTotal` | src/EventProcessor.C:488-520 | what one event adds to any bucket: the pairs' part plus the four event-level fills' |
| `Processor.EventEdiffEntry` | src/EventProcessor.C:501-520 | after one event the Ediff bucket holds exactly one new point, input total minus output total |
| `Processor.EventEdiffTotal` | src/EventProcessor.C:501-520 | one event contributes exactly its one difference point to the Ediff bucket |
| `Processor.EventSingleEnergiesEntries` | src/EventProcessor.C:488-499 | after one event the single-energy bucket has one new point per index pair when the lengths agree, and nothing new otherwise |
| `Processor.EventSingleEnergiesTotal` | src/EventProcessor.C:488-499 | one event contributes its index-matched pairs, or nothing, to the single-energy bucket |
| `Processor.TailContributions` | src/EventProcessor.C:516-520 | of the four event-level fills only the difference fill touches the Ediff and single-energy buckets |
| `Processor.PairsFromBounds` | src/EventProcessor.C:337-353 | every pair from offset i on is a primary entry at an offset ≥ i, paired with input `f*100 + offset + 1` below the input extent, in strictly increasing offset order |
| `Processor.PairsFromCovers` | src/EventProcessor.C:337-353 | from offset i on, an offset is paired exactly when its entry is primary and its input index is below the extent |
| `Processor.PairsSpec` | src/EventProcessor.C:337-353 | the whole pairing: primary entries only, input index `f*100 + i + 1` with raw offset i (skipped entries advance it), never at or beyond the extent, strictly increasing offsets, and every primary entry below the extent is paired |
| `Processor.Numbered` | src/EventProcessor.C:336-360 | the processed pairs numbered 1, 2, 3, ... in order |
| `Processor.NumberedSnoc` | src/EventProcessor.C:357 | one more pair gets the next event number |
| `Processor.ProgressStep` | src/EventProcessor.C:355-360 | processing one more pair keeps the relation between the fills and counters so far and the pairs done |
| `Processor.PairsStep` | src/EventProcessor.C:345-360 | a primary entry below the extent moves from the pairs to come to the pairs done |
| `Processor.PairsSkip` | src/EventProcessor.C:340 | a secondary entry is skipped |
| `Processor.PairsStop` | src/EventProcessor.C:347-353 | a primary entry at or beyond the extent ends the walk |
| `Processor.CollectInputKEs` | src/EventProcessor.C:388-430 | the loop builds exactly the input list |
| `Processor.CollectOutputKEs` | src/EventProcessor.C:451-485 | the loop builds exactly the output list |
| `Processor.Accumulate` | src/EventProcessor.C:505-508 | the loop computes the sum of the list |
| `Processor.AccumulatePEs` | src/EventProcessor.C:510-514 | the loop computes the photoelectron sum |
| `Processor.TailApplied` | src/EventProcessor.C:516-520 | the four Fill* calls in turn apply the event-level fills |
| `Processor.FileStep` | src/EventProcessor.C:355-360 | one more pair appends its event's fills and, on a length mismatch, one mismatch |
| `Processor.EventProcessor.constructor` | src/EventProcessor.C:58-60 | the given managers, and no display |
| `Processor.EventProcessor.SetEventDisplay` | include/EventProcessor.h:18 | the display is the one given |
| `Processor.EventProcessor.ProcessEvent` | src/EventProcessor.C:364-535 | the histograms receive exactly the event's fills; the mismatch counter rises by 1 exactly when the two lists differ in length and no other counter changes; a display is attempted exactly when one is attached and enabled, with no truth record, so nothing is listed; it is skipped for the first failing guard of `SkipFor`, faulted exactly when a column the panel reads is missing, and otherwise drawn with `PanelShows` for this event number, including the file name `EventFileName(evtNr)` |
| `Processor.EventProcessor.FillPairs` | src/EventProcessor.C:488-491 | one FillSingleEnergies per index, in order |
| `Processor.EventProcessor.CountEntry` | src/EventProcessor.C:358 | `n_total_entries` rises by one; no other counter changes |
| `Processor.EventProcessor.CountMismatch` | src/EventProcessor.C:498 | the KE-size-mismatch counter rises by one; no other counter changes |
| `Processor.EventProcessor.FillEventLevel` | src/EventProcessor.C:501-520 | the totals, the PE sum and the four event-level fills |
| `Processor.EventProcessor.ProcessFile` | src/EventProcessor.C:289-362 | a failed open processes nothing and, when the files are flagged invalid, raises both not-readable counters by one; a successful open raises `n_valid_file_pairs` by one, processes exactly the pairs of `Pairs` in order numbered 1, 2, 3, ..., raises `n_total_entries` by their number and the mismatch counter by their mismatches, and applies exactly their fills; on a first load in display mode the display's flag, table and box are what `LoadEffect` prescribes for the output file (unchanged on a failed load), and otherwise all three are unchanged |
| `Processor.EventProcessor.ProcessOpened` | src/EventProcessor.C:302-361 | the same effect for a file pair whose trees opened, including the display's table, box and flag as `LoadEffect` prescribes on a first load |
| `Processor.EventProcessor.PrepareDisplay` | src/EventProcessor.C:319-324 | when the display is attached, enabled and not yet loaded, its table, box and flag become what `LoadEffect` prescribes (a failed load keeps them); otherwise all three are unchanged |
| `Processor.EventProcessor.CountUnreadable` | src/EventProcessor.C:295-298 | both not-readable counters rise by one; no other counter changes |
| `Processor.EventProcessor.CountValidPair` | src/EventProcessor.C:302 | `n_valid_file_pairs` rises by one; no other counter changes |
| `Processor.EventProcessor.RunEvents` | src/EventProcessor.C:336-361 | the loop processes exactly the pairs of `Pairs`, numbered in order, with their fills and counter increments |
| `Processor.EventProcessor.ProcessPair` | src/EventProcessor.C:355-360 | one loop iteration: the entry is counted and the event processed |
| `Config.Timestamp` | src/Config.C:17-22 | definition: the year in `%d`, then month, day, `_`, hour, minute, second in `%02d`; its layout and round trip are stated by `Config.TimestampLayout` |
| `Geometry.BoxOf` | src/EventDisplay.C:72-83 | definition: the first row's point box, extended by each later row in read order; containment and tightness are stated by `Geometry.BoxOfContains` and `Geometry.BoxOfTight` |
| `Geometry.Classify` | src/EventDisplay.C:105-117 | definition: the chain of tolerance tests in the order ZP, ZM, XP, XM, YP, YM; its first-match meaning is stated by `Geometry.ClassifyFirstMatch` |
| `Geometry.FrameOf` | src/EventDisplay.C:328-355 | definition: Y faces span x by z with 56 × 50 bins, X faces y by z with 194 × 50, Z faces y by x with 194 × 56; the projection lands inside it by `Geometry.ProjectionInFrame` |
| `Geometry.Project` | src/EventDisplay.C:376-385 | definition: Z faces (y, x), X faces (y, z), Y faces (x, z); stated against the frame by `Geometry.ProjectionInFrame` |
| `Display.LoadEffect` | src/EventDisplay.C:26-93 | definition of a load attempt's outcome: on a loadable file the inserted table in metres, the running box of every row read and the flag set; otherwise table, box and flag as before |
| `Display.FaceFills` | src/EventDisplay.C:369-392 | definition: one fill per listed sensor that has a position, in list order; its soundness is stated by `Display.FaceFillsSound` |
| `Display.SkipFor` | src/EventDisplay.C:138-159 | no skip exactly when the geometry is loaded, both hit columns are present, the NPE column is non-empty and the two columns are equally long; without geometry the reason is always the missing geometry |
| `Display.Padded6` | src/EventDisplay.C:304 | definition: `setw(6)` with fill `0` of the decimal, sign included; read back by `Display.EventFileNameLayout` |
| `Display.EventFileName` | src/EventDisplay.C:303-304 | definition: `./Plots/event_`, the padded number, `.pdf`; its layout is stated by `Display.EventFileNameLayout` |
| `Display.SortByKEDescending` | src/EventDisplay.C:278 | definition: insertion sort by descending KE, standing in for `std::sort`; stated as a descending permutation by `Display.SortByKEDescendingSpec` |
| `Histograms.Deposits` | src/HistogramManager.C:212-300 | the arrays one fill call names are pairwise distinct, so each receives at most one point |
| `Histograms.Apply` | src/HistogramManager.C:212-300 | a call never creates or removes a bucket, and a call outside 1 ≤ d < 9 changes nothing |
| `Processor.InputIndex` | src/EventProcessor.C:345 | definition: `f*100 + i + 1`; its use in the pairing is stated by `Processor.PairsSpec` |
| `Processor.Pairs` | src/EventProcessor.C:337-353 | definition: the pairs walked from offset 0; stated in full by `Processor.PairsSpec` and `Processor.PairsFromBounds` |
| `Processor.InputList` | src/EventProcessor.C:386-430 | definition: the KEs of the final-state particles below StdHepN; stated by `Processor.InputKEsIndexed` |
| `Processor.OutputList` | src/EventProcessor.C:451-485 | definition: the first mcparticlecount values of mckes; stated by `Processor.OutputListSpec` |
| `Processor.EventFills` | src/EventProcessor.C:487-520 | definition: the pair fills when the lengths agree, then the event-level fills; its shape is stated by `Processor.EventFillsShape` |
| `Stats.SummaryValues` | src/Statistics.C:31-43 | definition: the six counters in print order; their use is stated by `Stats.Statistics.Summary` |

## Left out

- Floating point: energies, coordinates and percentages are reals. Over the reals every value
  is finite, so `std::isfinite` in the energy sum (src/EventDisplay.C:238) always holds, and the
  `ke > 0` test is the whole filter.
- Square root: Dafny has no square root over the reals. Each generator particle carries its rest
  mass, pinned down by `Kinematics.IsRestMass` (m ≥ 0, m² = E² − |p|²). For a space-like
  four-momentum no such mass exists, so the NaN the original computes there is outside the model:
  `Processor.WellFormedInput` requires a rest mass for every final-state particle.
- Integer widths: `Int_t`/`int` counters and indices are unbounded integers. The shard offset
  `file_nr*100 + i + 1` cannot overflow in the model. For an opened file pair `fileNr >= 0` is
  required: in debug mode validate.C:27 starts at the caller's unchecked `start_file`, and a
  negative shard would read input entries below 0 through `GetEntry`, which the model excludes.
  A failed open never uses the shard number and is modelled for every `fileNr`.
- ROOT I/O: branch set-up, `GetEntry` and every file operation are left out. Trees are sequences
  of entries. The outcome of `FileManager::OpenFiles` is an `OpenResult` parameter, carrying the
  validity flag on failure (src/FileManager.C:88 always clears that flag, so in a real run both
  counters rise). The branch at src/EventProcessor.C:307-310 is not modelled, because
  `OpenFiles` only succeeds once both trees were found (src/FileManager.C:141-154).
- Length assumptions: the stored `StdHepN` is taken to be at most the number of particles, and
  `mcparticlecount` at most the length of `mckes`. The original reads past the arrays otherwise
  (`Processor.WellFormedInput`, `Processor.WellFormedOutput`).
- `reserve`, the final-state pre-count at src/EventProcessor.C:376-384 and `PrintEventInfo` have
  no effect on the results and are not modelled. Neither is the unread `mcpdgs` column.
- `Processor.EventProcessor.ProcessEvent`: the debug-mode reads of the output columns are not
  modelled. With debug on and the `mcpdgs` column present, src/EventProcessor.C:433-448 reads
  `(*mcys)[0]`, `(*mczs)[0]` and `(*mcts)[0]` whenever `mckes` is present and `mcxs` is
  non-empty. src/EventProcessor.C:452-471 reads `mcxs`…`mcws` and `mcts` at every
  `j < mcparticlecount`. A null or too short column there is undefined behaviour
  in the original. The model treats it as if debug were off and performs the fills normally,
  where `CreateDisplay` would report `Faulted` for the same kind of read.
- Printing: `PrintSummary`/`PrintLine` become the `Report` value they would print. Field widths
  and `setprecision(2)` rounding of the percentage are not modelled.
- Canvas, pads, palettes, titles, the `TDatabasePDG` name lookup and writing the PDF are not
  modelled. A drawn display is the `Panel` data those would show.
- `std::sort` is not stable and leaves the order of equal energies unspecified. The model sorts
  by insertion and proves only what `std::sort` guarantees: descending energies and a
  permutation.
- Dereferencing a null or too short vector in `CreateDisplay` (mckes, the vertex columns, the
  listing columns) is undefined behaviour in the original. The model turns it into the `Faulted`
  outcome.
- The truth record `mc` is a sequence of optional PDG codes. `ProcessEvent` always passes null
  (src/EventProcessor.C:526).
- `GetTimestamp` reads the wall clock (`TDatime`). The clock reading is a parameter of
  `Config.Timestamp`.
- `Config` is a process-wide singleton in the original. Here it is a value passed to the
  operations that read it.
- `HistogramManager::InitializeOutputFile`, `CreateParameterTree`, `Write`, `CloseOutputFile` and
  the destructor are ROOT output and are not modelled. The histogram titles are not modelled
  either; only names, bins and ranges are.
- Bin-index arithmetic, under- and overflow of `TH1::Fill`: a bucket keeps every point it
  receives.
- `FileManager`, `validate.C`, `merge_datasets.C` and `strip_branches.C`, and the branch set-up
  of include/EventProcessor.h, are not part of this model.
