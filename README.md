# catmlib in Dafny

A Dafny model of the computational core of `catmlib`, the analysis library of
the CAT-M active-target detector. It covers:

- **Readout pads**: pad templates (regular polygons and rectangles); the pad
  array that rotates a template about x, y and z, moves it to a pad centre and
  records its id, vertex mean and charge; and the fixed layouts of the beam
  TPC, the recoil TPC, the silicon strip detectors and the trial beam-TPC pads.
- **Track simulation**: Monte-Carlo track parameters, ionisation electrons
  sampled along a straight track, diffusion of each electron into a cloud of
  points, hit counting on the pads, conversion of counts into charge, the
  charge-weighted x position, and the threshold, multiplicity and residual
  bookkeeping of an analysis.
- **Data shaping**: reading numbers and MCA `.spe` spectra from text lines,
  the histogram expansion of `(x, frequency)` pairs, peak finding, spectrum
  rebinning and normalisation, GET configuration index grouping, and channel
  table filtering.
- **MCA gain analysis**: gain-calculation parameters, the measured charge and
  gain, the inversion of the calibration line, the removal of fitted peaks,
  and the run number in a spectrum file name.
- **Divider circuits**: components with pre and post junctions, the component
  array and its connection list, the junction network, the translation of the
  connection list into resistors between nodes, and the voltage-setting
  bookkeeping (field strengths, trial input voltages, simulator readings).
- **Viewer utilities**: colour lists and colour lookup, nearest-index search,
  and the extrapolation of a track to a plane.

Classes whose methods update fields in place are Dafny classes:
- `TBasePadShapeClass`, `TReadoutPadArray`, `TrackSimulator`,
  `TMultiChannelAnalyzer`, `TBaseCircuitComponent`, `TCircuitComponentsArray`
  and `TBaseVoltageSettingData`.

Their methods are proved against specification functions. Pure helpers and
the source's list comprehensions are functions; its loops are loops with
invariants, inside methods.

Several things the code calls are supplied by the caller:
- Random draws are functions of the loop indices.
- `np.sin`, `np.cos`, `np.sqrt` and `np.pi` come in as a `Math` record.
- The point-in-polygon test is a predicate.
- Python's `float(s)` and `int(s)` on text are parsing functions.
- The straight-line fit of the calibration, a matplotlib colormap and `to_hex`
  are functions as well.

Python exceptions are values of `Wrappers.PyError`, carried in
`Result`/`Outcome`.

## Model

| member | source | states |
|---|---|---|
| Wrappers.PyIndex | src/catmlib/readoutpad/basepad.py:194 | list subscription succeeds exactly for `-len <= i < len`, negative indices counting from the end |
| Wrappers.FirstIndexOf | src/catmlib/circuit/basecircuit.py:133-137 | None exactly when the value is absent; otherwise the position holds the value and no earlier one does |
| Numerics.Trunc | src/catmlib/util/dataforming.py:169-170 | Python `int(x)`: the integer part, toward zero, for either sign |
| Numerics.RoundHalfEven | src/catmlib/util/dataforming.py:182 | Python `round(x)`: within 0.5 of `x`, and even on a tie |
| Numerics.SeqMax | src/catmlib/util/dataforming.py:179 | `max(xs)` is an element and bounds every element from above |
| Numerics.SeqMin | src/catmlib/util/catmviewer.py:30 | `min(xs)` is an element and bounds every element from below |
| Numerics.Floor | src/catmlib/util/catmviewer.py:30 | `np.floor`: the greatest integer not above `x` |
| Numerics.Ceil | src/catmlib/util/catmviewer.py:31 | `np.ceil`: the least integer not below `x` |
| Text.StripKeepsSlice | src/catmlib/util/dataforming.py:42 | `strip` keeps one slice that neither starts nor ends with whitespace, and everything cut off is whitespace |
| Text.StripLeftKeepsSuffix | src/catmlib/util/dataforming.py:42 | `lstrip` keeps a suffix that does not start with whitespace, cutting only whitespace |
| Text.StripRightKeepsPrefix | src/catmlib/util/dataforming.py:42 | `rstrip` keeps a prefix that does not end with whitespace, cutting only whitespace |
| Text.Words | src/catmlib/util/dataforming.py:29 | every word `split()` returns is non-empty and holds no whitespace |
| Text.WordSpans | src/catmlib/util/dataforming.py:29 | the word positions of `s`: each a run of non-whitespace ending at whitespace or the end of `s`, in strictly increasing order |
| Text.SpanStartsAfterSpace | src/catmlib/util/dataforming.py:29 | each word starts at the scan start or just after whitespace |
| Text.SpansCover | src/catmlib/util/dataforming.py:29 | every non-whitespace character lies inside some word |
| Text.WordsAreSpans | src/catmlib/util/dataforming.py:29 | `split()` of a suffix returns exactly the slices its word positions mark |
| Text.WordsAreMaximalRuns | src/catmlib/util/dataforming.py:29 | `s.split()` is the maximal runs of non-whitespace of `s`, in order: each word is a slice of `s` with whitespace or an end of `s` on both sides, and every non-whitespace character lies in one |
| Text.DecimalDigits | src/catmlib/analyser/mcaanalysis.py:752 | the digit string of `n` reads back as `n` |
| Text.JoinSplitOn | src/catmlib/simulator/tracksimulation.py:214-215 | joining the pieces of `s.split(sep)` with `sep` gives `s` back |
| Text.SplitOn | src/catmlib/simulator/tracksimulation.py:214 | `s.split(sep)` gives at least one piece, and no piece holds `sep` |
| Text.ParseAll | src/catmlib/simulator/tracksimulation.py:215 | the list comprehension of `float` succeeds exactly when every piece parses, and then holds every parsed value in order |
| BasePad.BasePadShape.constructor | src/catmlib/readoutpad/basepad.py:21-31 | a new shape has centre at the origin and no vertices |
| BasePad.BasePadShape.SetCenter | src/catmlib/readoutpad/basepad.py:33-38 | sets the centre and leaves the vertices |
| BasePad.BasePadShape.AddPolygon | src/catmlib/readoutpad/basepad.py:40-45 | appends one vertex, order kept |
| BasePad.BasePadShape.GetPolygon | src/catmlib/readoutpad/basepad.py:54-59 | returns the stored vertex list itself |
| BasePad.BasePadShape.GetCenter | src/catmlib/readoutpad/basepad.py:47-52 | returns the stored centre |
| BasePad.RotateX | src/catmlib/readoutpad/basepad.py:136-147 | rotation about x keeps x, and is the identity at 0 degrees |
| BasePad.RotateY | src/catmlib/readoutpad/basepad.py:149-160 | rotation about y keeps y, and is the identity at 0 degrees |
| BasePad.RotateZ | src/catmlib/readoutpad/basepad.py:162-173 | rotation about z keeps z, and is the identity at 0 degrees |
| BasePad.RotateXIsLinear | src/catmlib/readoutpad/basepad.py:136-147 | rotation about x distributes over sums and commutes with scaling |
| BasePad.RotateYIsLinear | src/catmlib/readoutpad/basepad.py:149-160 | rotation about y distributes over sums and commutes with scaling |
| BasePad.RotateZIsLinear | src/catmlib/readoutpad/basepad.py:162-173 | rotation about z distributes over sums and commutes with scaling |
| BasePad.RotationsPreserveLength | src/catmlib/readoutpad/basepad.py:136-173 | with `sin^2 + cos^2 = 1`, each rotation preserves a vector's length |
| BasePad.RotateIsLinear | src/catmlib/readoutpad/basepad.py:201-203 | the x-then-y-then-z rotation distributes over sums and commutes with scaling |
| BasePad.PlacePolygon | src/catmlib/readoutpad/basepad.py:197-208 | one placed vertex per template vertex, in order, each rotated then translated to the centre |
| BasePad.SumOfPlaced | src/catmlib/readoutpad/basepad.py:197-212 | the vertex sum of a placed pad is the rotated template sum plus `n` times the centre |
| BasePad.CentroidOfPlacedPad | src/catmlib/readoutpad/basepad.py:199-212 | the recorded pad centre is the template's vertex mean placed the same way |
| BasePad.RealizesAppend | src/catmlib/readoutpad/basepad.py:210-213 | appending the next placed pad, id and zero charge extends a realised layout by one placement |
| BasePad.ReadoutPadArray.constructor | src/catmlib/readoutpad/basepad.py:118-134 | a new array has no templates, pads, ids, centres or charges |
| BasePad.ReadoutPadArray.AddBasepad | src/catmlib/readoutpad/basepad.py:175-181 | appends a template and changes no pad list |
| BasePad.ReadoutPadArray.AddPads | src/catmlib/readoutpad/basepad.py:183-213 | IndexError for a template index out of range, nothing changed; otherwise appends the placed pad, its id, its vertex mean and charge 0 |
| BasePad.AddLayout | src/catmlib/readoutpad/basepad.py:183-213 | a layout loop leaves the pad lists realising the whole placement plan |
| BasePad.RegularTemplate | src/catmlib/readoutpad/basepad.py:303-315 | `n` vertices, all in the x-z plane |
| BasePad.RegularVertex | src/catmlib/readoutpad/basepad.py:306-315 | each vertex of the regular polygon lies in the x-z plane |
| BasePad.GenerateRegularNPolygon | src/catmlib/readoutpad/basepad.py:292-319 | no shape for `n < 3`; otherwise a fresh shape holding the regular template |
| BasePad.OblongIsCentredRectangle | src/catmlib/readoutpad/basepad.py:332-348 | the planes "yz", "zy", "xy" and "xz" give a rectangle centred on the origin; any other name gives no vertices |
| BasePad.GenerateOblong4Polygon | src/catmlib/readoutpad/basepad.py:321-352 | a fresh shape at the origin holding the rectangle of the named plane |
| Catm.BeamTpcPlan | src/catmlib/readoutpad/catm.py:24-34 | 22 pads with ids 0..21 at y = -99, pads alternately turned by 0 and 180 degrees about y |
| Catm.GetBeamTpcArray | src/catmlib/readoutpad/catm.py:14-36 | one triangle template of side 4.74, and pads realising the beam TPC plan |
| Catm.RecoilPlacement | src/catmlib/readoutpad/catm.py:52-95 | each recoil pad has its own id, y = -99, a turn of +-90 degrees about y and z within +-152.25 |
| Catm.RecoilTpcPlan | src/catmlib/readoutpad/catm.py:48-95 | 4048 pads in the order of the four nested loops |
| Catm.RecoilHalvesAreMirrored | src/catmlib/readoutpad/catm.py:52-95 | pad `k + 2024` is pad `k` mirrored in x and turned the other way |
| Catm.GetRecoilTpcArray | src/catmlib/readoutpad/catm.py:38-97 | one triangle template of side 6.9133974596, and pads realising the recoil plan |
| Catm.SsdPlacement | src/catmlib/readoutpad/catm.py:108-160 | strip `k` is unrotated, at x = -255 for the first 48 strips and 255 after, at y = 54 for strips 0-23 and 48-71 and y = -54 for strips 24-47 and 72-95, and strip `k % 8` of its block one strip width per step from the block's z start (-42.55, 65.45 or 168.45, less 45.3) |
| Catm.SsdPlan | src/catmlib/readoutpad/catm.py:108-160 | 96 strips in loop order |
| Catm.SsdStripsAbut | src/catmlib/readoutpad/catm.py:110-121 | neighbouring strips of a block are one template width apart, so a block has no gaps or overlaps |
| Catm.GetSsdArray | src/catmlib/readoutpad/catm.py:99-162 | one `yz` rectangle template, and strips realising the plan |
| TrialPad.OriginalPlan | src/catmlib/simulator/trialpad.py:21-31 | 22 pads, one per pass of the two row loops |
| TrialPad.OneFourthShiftPlan | src/catmlib/simulator/trialpad.py:44-54 | 22 pads, one per pass of the two row loops |
| TrialPad.ShiftMovesOnlySecondRow | src/catmlib/simulator/trialpad.py:24-54 | the shifted layout keeps the first row and the ids, and moves each second-row pad by +1.25 in x only |
| TrialPad.BeamTpcIsOriginalMoved | src/catmlib/simulator/trialpad.py:24-31 | the detector's beam TPC layout is the original trial layout translated, pad by pad |
| TrialPad.GetOriginalBeamtpcPadArray | src/catmlib/simulator/trialpad.py:12-33 | triangle template of side 4.74, pads realising the original plan |
| TrialPad.GetBeamtpcOneFourthShiftPadArray | src/catmlib/simulator/trialpad.py:35-56 | triangle template of side 4.74, pads realising the shifted plan |
| TrialPad.Plan60ch | src/catmlib/simulator/trialpad.py:70-87 | 60 pads with ids 0..59 in three rows of 20, neighbours 1.5 apart in x |
| TrialPad.GetBeamtpc60chPadArray | src/catmlib/simulator/trialpad.py:58-89 | triangle template of side 2.75, pads realising the 60-pad plan |
| TrialPad.GetTrailBeamtpcArray | src/catmlib/simulator/trialpad.py:91-105 | versions 0 and 1 give the shifted layout, 2 the 60-pad layout, anything else no array |
| TrackSimulation.GaussValue | src/catmlib/simulator/tracksimulation.py:178-187 | a normal draw fails exactly for a negative sigma, and is the mean itself for sigma 0 |
| TrackSimulation.UniformBetween | src/catmlib/simulator/tracksimulation.py:189-198 | a uniform draw lies within `width` of the value |
| TrackSimulation.UniformValue | src/catmlib/simulator/tracksimulation.py:189-198 | a draw at a fraction in [0, 1] lies within `width` of the value |
| TrackSimulation.McTupleErrorPersists | src/catmlib/simulator/tracksimulation.py:221-227 | once a component raises, the tuple raises that exception |
| TrackSimulation.McTupleErrorIgnoresDraws | src/catmlib/simulator/tracksimulation.py:218-227 | whether a tuple raises, and which exception, does not depend on the random draws |
| TrackSimulation.McTupleLength | src/catmlib/simulator/tracksimulation.py:221-227 | a tuple has one entry per recognised distribution label; unknown labels add nothing |
| TrackSimulation.McTupleAllNull | src/catmlib/simulator/tracksimulation.py:222-223 | with every label "null" each tuple is the track parameters themselves |
| TrackSimulation.DrawTuple | src/catmlib/simulator/tracksimulation.py:219-227 | the inner loop builds exactly the tuple of draws `j`, or its exception |
| TrackSimulation.Linspace | src/catmlib/simulator/tracksimulation.py:95 | `n` values from 0 to `stop` inclusive |
| TrackSimulation.LinspaceIsEvenlySpaced | src/catmlib/simulator/tracksimulation.py:95 | consecutive values differ by `stop / (n - 1)` |
| TrackSimulation.TrackPoints | src/catmlib/simulator/tracksimulation.py:94-96 | one sample per point, the first at the start point |
| TrackSimulation.TrackSpansRange | src/catmlib/simulator/tracksimulation.py:94-96 | the sampled track ends `z_range` further along z, in equal steps along the direction |
| TrackSimulation.ElectronCount | src/catmlib/simulator/tracksimulation.py:247-250 | the electron count is defined exactly when the direction is not horizontal and `W` is non-zero |
| TrackSimulation.ElectronFactorShares | src/catmlib/simulator/tracksimulation.py:251 | for a non-negative count the factor is the count over the points, rounded down |
| TrackSimulation.AxisIndex | src/catmlib/simulator/tracksimulation.py:268-269 | a plane letter maps to axis 0, 1 or 2, unknown letters to 0 |
| TrackSimulation.Smeared | src/catmlib/simulator/tracksimulation.py:281-285 | a smeared point keeps the electron's y |
| TrackSimulation.Cloud | src/catmlib/simulator/tracksimulation.py:278-285 | `gain` smeared copies of one electron |
| TrackSimulation.Diffused | src/catmlib/simulator/tracksimulation.py:273-287 | `gain` diffused points per electron |
| TrackSimulation.DiffusedLayout | src/catmlib/simulator/tracksimulation.py:273-287 | diffused point `i * gain + j` is copy `j` of electron `i`, with that electron's y |
| TrackSimulation.HitCount | src/catmlib/simulator/tracksimulation.py:305-311 | a pad's count is at most the number of diffused points |
| TrackSimulation.PadsHit | src/catmlib/simulator/tracksimulation.py:307-311 | a point lands in at most all of the pads |
| TrackSimulation.TotalHitsOfNoPoints | src/catmlib/simulator/tracksimulation.py:305-311 | no diffused points give no hits |
| TrackSimulation.TotalHitsLastPoint | src/catmlib/simulator/tracksimulation.py:305-311 | the last point adds the number of pads it lands in |
| TrackSimulation.DoubleCounting | src/catmlib/simulator/tracksimulation.py:305-311 | the hit counts summed over the pads equal the pads hit summed over the points |
| TrackSimulation.DisjointPadsConserveCount | src/catmlib/simulator/tracksimulation.py:305-311 | with non-overlapping pads the total count is at most the number of points, and equal when every point lands in a pad |
| TrackSimulation.ChargeScaleIsLinearInGain | src/catmlib/simulator/tracksimulation.py:320 | the charge of a count is linear in the GEM gain |
| TrackSimulation.ChargeScale | src/catmlib/simulator/tracksimulation.py:320 | the charge of a count scales by factor, gain, Qe and pC over the diffusion gain |
| TrackSimulation.WeightedMean | src/catmlib/simulator/tracksimulation.py:450 | ValueError exactly for lengths that do not broadcast; ZeroDivisionError exactly for no charges and at most one position; undefined (NaN) exactly for a zero total |
| TrackSimulation.WeightedSumIsSumOfProducts | src/catmlib/simulator/tracksimulation.py:450 | the numerator is the sum of position times charge |
| TrackSimulation.WeightedSumAbove | src/catmlib/simulator/tracksimulation.py:450 | with non-negative charges the numerator is at least the least position times the total |
| TrackSimulation.WeightedSumBelow | src/catmlib/simulator/tracksimulation.py:450 | with non-negative charges the numerator is at most the greatest position times the total |
| TrackSimulation.CenterXs | src/catmlib/simulator/tracksimulation.py:449 | the x coordinate of every pad centre, in order |
| TrackSimulation.WeightedMeanWithin | src/catmlib/simulator/tracksimulation.py:449-450 | with non-negative charges and a positive total, the weighted x lies between the extreme pad positions |
| TrackSimulation.MultiplicityCountsKeptPads | src/catmlib/simulator/tracksimulation.py:540-545 | with a non-negative threshold, the multiplicity is the number of pads that keep a charge after the cut |
| TrackSimulation.CountAboveAntitone | src/catmlib/simulator/tracksimulation.py:540-545 | raising the threshold never raises the multiplicity |
| TrackSimulation.ThresholdKeepsClearCharges | src/catmlib/simulator/tracksimulation.py:472-476 | a threshold below every non-zero charge changes nothing |
| TrackSimulation.ThresholdRow | src/catmlib/simulator/tracksimulation.py:472-476 | one entry per pad: the charge if above the threshold, else 0 |
| TrackSimulation.CountAbove | src/catmlib/simulator/tracksimulation.py:541-545 | at most one count per pad |
| TrackSimulation.TrackSimulator.constructor | src/catmlib/simulator/tracksimulation.py:22-47 | the default beam, dE/dx 0.0708, W 37, gain 100, pC and Qe constants, no tuples |
| TrackSimulation.TrackSimulator.SetBeaminfo | src/catmlib/simulator/tracksimulation.py:49-54 | sets the beam text only |
| TrackSimulation.TrackSimulator.SetDedx | src/catmlib/simulator/tracksimulation.py:56-61 | sets dE/dx only |
| TrackSimulation.TrackSimulator.SetGain | src/catmlib/simulator/tracksimulation.py:63-68 | sets the gain only |
| TrackSimulation.TrackSimulator.SetPadarray | src/catmlib/simulator/tracksimulation.py:70-75 | shares the given pad array |
| TrackSimulation.TrackSimulator.MonteCarloTrack | src/catmlib/simulator/tracksimulation.py:200-229 | a bad parameter is a ValueError and a tuple error ends the run with no tuples; otherwise `nmax` tuples, tuple `j` drawn with draws `j` |
| TrackSimulation.TrackSimulator.GenerateTrack | src/catmlib/simulator/tracksimulation.py:77-98 | a negative count is a ValueError; otherwise the `points` samples of the straight track up to the z range |
| TrackSimulation.TrackSimulator.GenerateIonizedElectrons | src/catmlib/simulator/tracksimulation.py:231-256 | a horizontal track or `W = 0` fails, and zero points is a ZeroDivisionError, leaving the electrons unchanged; otherwise the factor is the electron count shared over the points and the electrons are the `points` samples of the track |
| TrackSimulation.TrackSimulator.CalculateDifusedPoint | src/catmlib/simulator/tracksimulation.py:258-287 | a plane name shorter than two letters is an IndexError; otherwise `gain` smeared copies per electron, and no electrons keeps the old points |
| TrackSimulation.TrackSimulator.CalculatePadElectrons | src/catmlib/simulator/tracksimulation.py:289-311 | each pad's charge becomes the number of diffused points inside its projected outline |
| TrackSimulation.TrackSimulator.CalculatePadCharge | src/catmlib/simulator/tracksimulation.py:313-320 | every count is scaled by the charge factor; a zero divisor raises ZeroDivisionError before anything changes |
| TrackSimulation.CollectEventsOk | src/catmlib/simulator/tracksimulation.py:435-454 | a run completes exactly when every event does, and then lists every event's x and charges in order |
| TrackSimulation.CollectEventsErr | src/catmlib/simulator/tracksimulation.py:435-454 | a run that raises raises the exception of one of its events |
| TrackSimulation.CollectEventsStops | src/catmlib/simulator/tracksimulation.py:435-454 | once a prefix of the events raises, the run raises that exception |
| TrackSimulation.EventCharges | src/catmlib/simulator/tracksimulation.py:441-447 | a simulated event has one charge per pad |
| TrackSimulation.PadCharges | src/catmlib/simulator/tracksimulation.py:443-447 | counting and scaling give one charge per pad |
| TrackSimulation.EventTrack | src/catmlib/simulator/tracksimulation.py:441-442 | one event's electron points are 100 samples starting at the tuple's position, diffused into `100 * difusion_gain` points |
| TrackSimulation.SimulateEvent | src/catmlib/simulator/tracksimulation.py:441-447 | one event runs the four simulator steps, giving `EventCharges`; a completed event leaves those charges on the pads and the electron factor, electron points and diffused points of `EventTrack` on the simulator, with the pad layout and track point kept |
| TrackSimulation.CountPadCharges | src/catmlib/simulator/tracksimulation.py:443-447 | counting then scaling gives `PadCharges`, and the pad charges become that result; on a zero divisor they stay the hit counts of the diffused points |
| TrackSimulation.RunTrack | src/catmlib/simulator/tracksimulation.py:438-452 | one track event gives the charges and their weighted x, or the first exception; completed charges are left on the pads with the `EventTrack` fields on the simulator |
| TrackSimulation.RunEvent | src/catmlib/simulator/tracksimulation.py:429-452 | one event with the pad z values gives `EventResult`; a short tuple or no pad vertices changes no charge or track field, and a completed event leaves its charges on the pads and its `EventTrack` fields, for the z range of the pads |
| TrackSimulation.CollectEventsNext | src/catmlib/simulator/tracksimulation.py:435-452 | after a completed prefix, the next event either appends its x and charges or ends the run with its exception |
| TrackSimulation.NextEvent | src/catmlib/simulator/tracksimulation.py:435-452 | one pass of the event loop: the lists grow by the event's x and charges, which stay on the pads, or the run ends with the event's exception |
| TrackSimulation.SimulateEvents | src/catmlib/simulator/tracksimulation.py:435-454 | the event loop gives the event-by-event collection of every tuple's x and charges; no tuples changes no charge or track field, and a completed run leaves the last event's charges on the pads and the last tuple's `EventTrack` fields |
| TrackSimulation.SimulatePadCharge | src/catmlib/simulator/tracksimulation.py:414-454 | sets the gain, then the result is the event-by-event collection of every tuple's simulated x and charges; no tuples changes no charge or track field, and a completed run leaves the last event's charges on the pads and the last tuple's `EventTrack` fields on the simulator |
| TrackSimulation.CalculatePadChargeThreshold | src/catmlib/simulator/tracksimulation.py:456-482 | completes exactly when every event's position does, then each event's cut charges and weighted x; otherwise the first failing event's exception |
| TrackSimulation.Multiplicities | src/catmlib/simulator/tracksimulation.py:539-545 | one entry per event: the number of charges strictly above the global threshold |
| TrackSimulation.Residuals | src/catmlib/simulator/tracksimulation.py:532-534 | IndexError exactly when the original list is shorter; otherwise the element-wise differences |
| DataForming.StrToArray | src/catmlib/util/dataforming.py:22-33 | the floats of the words when every word parses, else the empty array |
| DataForming.NumberLineIndices | src/catmlib/util/dataforming.py:42 | exactly the lines whose stripped text is all digits, in file order |
| DataForming.LoadNumbers | src/catmlib/util/dataforming.py:35-43 | the integer of every kept line, in file order |
| DataForming.DataMarker | src/catmlib/util/dataforming.py:76-81 | the first `$DATA:` line, or none |
| DataForming.SpeValuesAreLines | src/catmlib/util/dataforming.py:84-88 | each value read is the integer of its line, and no line read is `$ENER_FIT:` |
| DataForming.SpeValuesStopsAtMarker | src/catmlib/util/dataforming.py:84-86 | a read that stops short ends at a `$ENER_FIT:` line |
| DataForming.SpeValues | src/catmlib/util/dataforming.py:83-88 | at most `stop - i` values, all from lines of the file |
| DataForming.ReadChannels | src/catmlib/util/dataforming.py:83-90 | the read loop gives `SpeValues`, with channel numbers `0..len(y)-1` |
| DataForming.Range | src/catmlib/util/dataforming.py:89 | `n` channel numbers from 0 |
| DataForming.SpeData | src/catmlib/util/dataforming.py:63-90 | no `$DATA:` line gives empty lists; `x` is always `0..len(y)-1` |
| DataForming.FindDataLine | src/catmlib/util/dataforming.py:75-81 | finds the `$DATA:` line exactly when there is one |
| DataForming.ReadSpeLines | src/catmlib/util/dataforming.py:63-90 | the scan gives exactly `SpeData` of the lines |
| DataForming.CreateHistogramDataFromPoints | src/catmlib/util/dataforming.py:92-104 | the result is the frequency expansion of the pairs of `zip(x, y)` |
| DataForming.HistogramTruncates | src/catmlib/util/dataforming.py:101 | `zip` ignores the longer list's tail |
| DataForming.HistogramCounts | src/catmlib/util/dataforming.py:101-102 | each value occurs exactly as often as its positive frequencies add up to |
| DataForming.HistogramLength | src/catmlib/util/dataforming.py:101-102 | the expansion's length is the total positive frequency |
| DataForming.Repeat | src/catmlib/util/dataforming.py:102 | `n` copies of the value, none for `n <= 0` |
| DataForming.RepeatCount | src/catmlib/util/dataforming.py:102 | the copies hold the value `max(n, 0)` times and nothing else |
| DataForming.FindPeaks | src/catmlib/util/dataforming.py:106-123 | nothing for fewer than 3 values; otherwise exactly the strict local maxima, in increasing order, and their count |
| DataForming.ChunksPartition | src/catmlib/util/dataforming.py:166-173 | for `0 < bins < n` the chunks are non-empty, consecutive, start at 0 and end at `n` |
| DataForming.RebinPointFacts | src/catmlib/util/dataforming.py:166-172 | the bin edges step by `n / bins` from 0 to `n` |
| DataForming.BinSizeAboveOne | src/catmlib/util/dataforming.py:166-172 | fewer bins than points give bins wider than one point |
| DataForming.SpeRebin | src/catmlib/util/dataforming.py:162-176 | ZeroDivisionError exactly for 0 bins and some data; padding with zeros for enough bins; otherwise each bin is its chunk's mean |
| DataForming.NormalizedValue | src/catmlib/util/dataforming.py:182 | the maximum maps to `height`, and values in `[0, max]` map into `[0, height]` |
| DataForming.SpeNormalize | src/catmlib/util/dataforming.py:178-182 | ValueError exactly for no data; all zeros for a zero maximum; each maximal entry becomes `height` |
| XcfgReader.IndicesOf | src/catmlib/util/xcfgreader.py:25-26 | exactly the positions of `v`, increasing |
| XcfgReader.AbsentHasNoIndices | src/catmlib/util/xcfgreader.py:25-26 | a value that does not occur has no positions |
| XcfgReader.EachIndexOnce | src/catmlib/util/xcfgreader.py:24-27 | each position appears once, in its own value's group and in no other |
| XcfgReader.ClassifyIndices | src/catmlib/util/xcfgreader.py:15-27 | the keys are exactly the values that occur, each mapped to its increasing positions |
| XcfgReader.MatchingRows | src/catmlib/util/xcfgreader.py:166-188 | exactly the rows passing all four filters, increasing |
| XcfgReader.WildcardsMatchAll | src/catmlib/util/xcfgreader.py:167-185 | with every filter negative, every row index is returned, in order |
| XcfgReader.GetMatchingIndices | src/catmlib/util/xcfgreader.py:151-190 | the loop returns exactly the matching rows |
| PeakRemoval.SortDescendingSorts | src/catmlib/analyser/mcaanalysis.py:459 | `sorted(..., reverse=True)` is descending and a permutation of its input |
| PeakRemoval.SortDistinct | src/catmlib/analyser/mcaanalysis.py:459 | sorting distinct indices gives a strictly descending list of the same values |
| PeakRemoval.DeleteEachKeeps | src/catmlib/analyser/mcaanalysis.py:459-461 | deleting strictly descending positions keeps exactly the other elements, in order |
| PeakRemoval.RemoveListed | src/catmlib/analyser/mcaanalysis.py:459-465 | the listed positions inside the list are gone and the survivors keep their order |
| PeakRemoval.DeleteSorted | src/catmlib/analyser/mcaanalysis.py:459-461 | the deletion loop deletes each in-range index in turn |
| McaAnalysis.CalibrationInvertsFit | src/catmlib/analyser/mcaanalysis.py:427-428 | `a = 1/p1`, `b = -p0/p1` invert the fitted line in both directions |
| McaAnalysis.FlattenAt | src/catmlib/analyser/mcaanalysis.py:195-196 | `flatten` puts entry `j` of row `i` at `i * w + j` |
| McaAnalysis.FlattenLength | src/catmlib/analyser/mcaanalysis.py:195-196 | flattening `n` rows of width `w` gives `n * w` values |
| McaAnalysis.LinearAll | src/catmlib/analyser/mcaanalysis.py:225-233 | the calibration line applied to every entry |
| McaAnalysis.Gain | src/catmlib/analyser/mcaanalysis.py:210-211 | for non-zero `W`: undefined exactly for a zero divisor; otherwise gain times the divisors gives the charge back |
| McaAnalysis.RelativeErrorsMeaning | src/catmlib/analyser/mcaanalysis.py:419-420 | each relative error times its mean is its sigma; the loop stops at a missing sigma or a zero mean |
| McaAnalysis.RelativeErrors | src/catmlib/analyser/mcaanalysis.py:419-420 | at most one error per mean, and the loop passes exactly when it computes all of them |
| McaAnalysis.RelativeErrorsStops | src/catmlib/analyser/mcaanalysis.py:419-420 | once a prefix fails, the loop fails the same way |
| McaAnalysis.RemoveFromFilesDeletes | src/catmlib/analyser/mcaanalysis.py:467-486 | when every file goes through, each list's row of each file lost exactly its listed positions |
| McaAnalysis.RemoveFromFilesStops | src/catmlib/analyser/mcaanalysis.py:467-486 | once a file fails, later files are untouched |
| McaAnalysis.RowDelete | src/catmlib/analyser/mcaanalysis.py:468-486 | deleting from one row keeps the number of rows |
| McaAnalysis.RowDeleteFails | src/catmlib/analyser/mcaanalysis.py:468-470 | one row's deletions raise exactly when the row is missing and some index is non-negative, since `0 <= index` stops the check before `len(row)` for a negative one; the error is IndexError, and a missing row with only negative indices stays as it is |
| McaAnalysis.DeleteFromRow | src/catmlib/analyser/mcaanalysis.py:468-470 | the deletion loop on row `i` gives `RowDelete`: a missing row raises at the first non-negative index |
| McaAnalysis.FileStep | src/catmlib/analyser/mcaanalysis.py:468-486 | one file's deletions keep the shape of the five lists |
| McaAnalysis.FileStepFails | src/catmlib/analyser/mcaanalysis.py:468-486 | one file's deletions raise exactly when some index is non-negative and one of the five lists has no row for the file |
| McaAnalysis.NegativeIndexSkipsMissingRow | src/catmlib/analyser/mcaanalysis.py:466-486 | with no fitted rows and the index list `[[-1]]`, the deletions complete and change nothing |
| McaAnalysis.FileStepPasses | src/catmlib/analyser/mcaanalysis.py:468-486 | a file that goes through deletes its listed positions from the same row of all five lists |
| McaAnalysis.RemoveFromFiles | src/catmlib/analyser/mcaanalysis.py:467-486 | the whole loop keeps the shape of the five lists |
| McaAnalysis.RowsRemovedStep | src/catmlib/analyser/mcaanalysis.py:467-486 | one more file extends the deletions done so far |
| McaAnalysis.KeepRows | src/catmlib/analyser/mcaanalysis.py:467 | before the first file nothing is deleted |
| McaAnalysis.MultiChannelAnalyzer.RemoveFromFile | src/catmlib/analyser/mcaanalysis.py:468-486 | the five lists become `FileStep` of the old lists |
| McaAnalysis.ExtractNumber | src/catmlib/analyser/mcaanalysis.py:744-752 | a number is only returned from a match of `-(\d+)\.spe$` |
| McaAnalysis.ExtractNumberMatches | src/catmlib/analyser/mcaanalysis.py:751-752 | any match gives that number |
| McaAnalysis.SuffixStart | src/catmlib/analyser/mcaanalysis.py:751 | the `.spe` suffix found sits at the end of the path |
| McaAnalysis.DigitRunStart | src/catmlib/analyser/mcaanalysis.py:751 | the digit run found is maximal to the left |
| McaAnalysis.MultiChannelAnalyzer.constructor | src/catmlib/analyser/mcaanalysis.py:73-104 | the default parameters and empty lists |
| McaAnalysis.MultiChannelAnalyzer.SetGainCalculationParameters | src/catmlib/analyser/mcaanalysis.py:160-183 | only the given parameters change |
| McaAnalysis.MultiChannelAnalyzer.CalculateQmeas | src/catmlib/analyser/mcaanalysis.py:185-198 | no data changes nothing; ragged lists are a ValueError; otherwise the charge is the calibration line of every flattened mean, and the error the slope times every flattened sigma |
| McaAnalysis.MultiChannelAnalyzer.CalculateGain | src/catmlib/analyser/mcaanalysis.py:200-213 | no charge changes nothing; `W = 0` raises ZeroDivisionError; otherwise the gain of every entry |
| McaAnalysis.MultiChannelAnalyzer.CalculateCalibrationParameters | src/catmlib/analyser/mcaanalysis.py:403-449 | with as many peaks as inputs, the relative errors, the fit and its inverse calibration; otherwise nothing changes |
| McaAnalysis.MultiChannelAnalyzer.RemoveFittedPeakCalib | src/catmlib/analyser/mcaanalysis.py:458-465 | the sorted positions are deleted from the sigmas and the means |
| McaAnalysis.MultiChannelAnalyzer.RemoveFittedPeakData | src/catmlib/analyser/mcaanalysis.py:466-486 | the five per-file lists become `RemoveFromFiles` of the old lists |
| BaseCircuit.UnitTitle | src/catmlib/circuit/basecircuit.py:33-40 | the unit label exists exactly for the known component types, else UnboundLocalError; it extends the unit prefix |
| BaseCircuit.ComponentTitle | src/catmlib/circuit/basecircuit.py:42 | `C_{1}` for `C1`: the name's first letter and rest around `_{` and `}` |
| BaseCircuit.NewComponent | src/catmlib/circuit/basecircuit.py:24-44 | UnboundLocalError for an unknown type, IndexError for an empty name, otherwise the component and its two junctions |
| BaseCircuit.CircuitComponent.constructor | src/catmlib/circuit/basecircuit.py:24-44 | the component with its name, type, value, unit title and two junctions |
| BaseCircuit.CircuitComponent.AddPreJunction | src/catmlib/circuit/basecircuit.py:46-53 | appends a given label; none changes nothing |
| BaseCircuit.CircuitComponent.AddPostJunction | src/catmlib/circuit/basecircuit.py:55-62 | appends a given label; none changes nothing |
| BaseCircuit.MergeCollects | src/catmlib/circuit/basecircuit.py:334-342 | merged keys are exactly the junction names, each holding exactly the labels of its junctions |
| BaseCircuit.Dedupe | src/catmlib/circuit/basecircuit.py:344-345 | same keys, and each value holds the same labels as a set |
| BaseCircuit.NamesOf | src/catmlib/circuit/basecircuit.py:133-137 | the component names, in order |
| BaseCircuit.ComponentArray.constructor | src/catmlib/circuit/basecircuit.py:104-110 | no components, no connections |
| BaseCircuit.ComponentArray.AddCircuitComponent | src/catmlib/circuit/basecircuit.py:112-118 | appends the component |
| BaseCircuit.ComponentArray.FindIndexByComponentName | src/catmlib/circuit/basecircuit.py:127-137 | the first component with that name, or None |
| BaseCircuit.ComponentArray.ConnectSeries | src/catmlib/circuit/basecircuit.py:139-151 | cross-links post and pre junctions and records a series entry |
| BaseCircuit.ComponentArray.ConnectParallel | src/catmlib/circuit/basecircuit.py:153-175 | cross-links both pre and both post lists and records a parallel entry |
| BaseCircuit.ComponentArray.ConnectCloseParallel | src/catmlib/circuit/basecircuit.py:177-198 | cross-links the post lists only and records the skip number |
| BaseCircuit.ComponentArray.ConnectOpenParallel | src/catmlib/circuit/basecircuit.py:200-221 | cross-links the pre lists only and records the offsets |
| BaseCircuit.ComponentArray.ConnectWithDownLine | src/catmlib/circuit/basecircuit.py:223-227 | records a down entry |
| BaseCircuit.ComponentArray.BuildNodes | src/catmlib/circuit/basecircuit.py:329-347 | junction lists merged by name, each reduced to its set of labels |
| CircuitSimulator.ResistanceUnit | src/catmlib/circuit/circuitsimulator.py:20-33 | a unit exactly for the prefixes "", "k", "M", "m", else ValueError |
| CircuitSimulator.UnitPrefixRead | src/catmlib/circuit/circuitsimulator.py:65-66 | a component whose unit has no prefix raises ValueError, because its unit title starts with the unit symbol; a "k", "M" or "m" prefix reads as a unit |
| CircuitSimulator.Lookup | src/catmlib/circuit/circuitsimulator.py:47-55 | a component exactly for an index that was found and is in range, else KeyError |
| CircuitSimulator.PartsOf | src/catmlib/circuit/circuitsimulator.py:47 | one part per component |
| CircuitSimulator.AddKeepsConsistent | src/catmlib/circuit/circuitsimulator.py:69-76 | adding a new resistor keeps the placed list and the added set in step |
| CircuitSimulator.FirstPlaced | src/catmlib/circuit/circuitsimulator.py:88 | the first placed record of an index, or none when there is none |
| CircuitSimulator.AddNew | src/catmlib/circuit/circuitsimulator.py:69-76 | adding a resistor for a new index keeps the build consistent and marks the index added |
| CircuitSimulator.FirstPlacedOf | src/catmlib/circuit/circuitsimulator.py:87-90 | an added index has a placed record, the first one |
| CircuitSimulator.Resolve | src/catmlib/circuit/circuitsimulator.py:53-66 | both components and units are found exactly when both indices are valid and both units read |
| CircuitSimulator.Place | src/catmlib/circuit/circuitsimulator.py:68-93 | the series and parallel placement keeps the build consistent |
| CircuitSimulator.Step | src/catmlib/circuit/circuitsimulator.py:52-93 | one connection keeps the build consistent or raises |
| CircuitSimulator.BuildFrom | src/catmlib/circuit/circuitsimulator.py:52-93 | a finished build is consistent: one placed record per resistor and each component added once |
| CircuitSimulator.DownFails | src/catmlib/circuit/circuitsimulator.py:53-54 | a down-line entry anywhere makes the build fail |
| CircuitSimulator.DownAtEnd | src/catmlib/circuit/circuitsimulator.py:52-53 | a down-line entry at the end makes the build fail |
| CircuitSimulator.StepErrStops | src/catmlib/circuit/circuitsimulator.py:52-93 | the first failing connection ends the build with its exception |
| CircuitSimulator.SeriesChains | src/catmlib/circuit/circuitsimulator.py:68-76 | a series pair adds two resistors, the second starting where the first ends |
| CircuitSimulator.ParallelCopiesNodes | src/catmlib/circuit/circuitsimulator.py:78-93 | the second resistor of a parallel pair gets the nodes of the first one's record |
| CircuitSimulator.BuildPyspiceCircuit | src/catmlib/circuit/circuitsimulator.py:35-95 | the resistors built are those of `BuildFrom`, or its exception |
| VoltageSetting.FieldValue | src/catmlib/circuit/voltagesetting.py:186-194 | a value needs a spacing for the gap |
| VoltageSetting.FieldRun | src/catmlib/circuit/voltagesetting.py:184-194 | the loop keeps one condition per label |
| VoltageSetting.FieldRunMeaning | src/catmlib/circuit/voltagesetting.py:184-194 | each set condition is the GEM voltage drop or the reduced field of its gap; the loop stops at the first division by zero or missing spacing |
| VoltageSetting.FieldRunFailStays | src/catmlib/circuit/voltagesetting.py:184-194 | once a gap fails, the later gaps are not computed |
| VoltageSetting.FieldRunStops | src/catmlib/circuit/voltagesetting.py:184-194 | the first failing gap ends the loop with its exception |
| VoltageSetting.TrialVoltages | src/catmlib/circuit/voltagesetting.py:224-237 | one trial voltage per condition |
| VoltageSetting.Contributions | src/catmlib/circuit/voltagesetting.py:230-232 | each contribution is the condition times its factor |
| VoltageSetting.DropsTelescope | src/catmlib/circuit/voltagesetting.py:184-190 | summing the drops from the last electrode gives each electrode voltage |
| VoltageSetting.FactorUndoesField | src/catmlib/circuit/voltagesetting.py:192-231 | the trial factor undoes the field formula |
| VoltageSetting.TrialInvertsFields | src/catmlib/circuit/voltagesetting.py:184-237 | the trial estimate inverts the field computation: it reproduces the electrode voltages, last first |
| VoltageSetting.SourceReadingsShape | src/catmlib/circuit/voltagesetting.py:146-158 | succeeds exactly when the first stage has three node voltages and each later stage one; then the source and electrode voltages are read off in order |
| VoltageSetting.SourceReadingsErrStays | src/catmlib/circuit/voltagesetting.py:146-158 | once a stage fails, the reading fails that way |
| VoltageSetting.SourceReadingsStop | src/catmlib/circuit/voltagesetting.py:146-158 | a stage with too few node voltages raises IndexError |
| VoltageSetting.ScaledCurrentsAt | src/catmlib/circuit/voltagesetting.py:160-163 | current `j` of stage `i` appears, in microamperes, at its flattened position |
| VoltageSetting.Scaled | src/catmlib/circuit/voltagesetting.py:162-163 | each current of a stage times 1e6 |
| VoltageSetting.ScaledCurrentsLength | src/catmlib/circuit/voltagesetting.py:160-163 | one scaled current per current |
| VoltageSetting.DoubleMinitpcDoubleThgem | src/catmlib/circuit/voltagesetting.py:343-364 | None unless there are four resistors; otherwise a field-cage stage and three plate stages with their titles |
| VoltageSetting.VoltageSettingData.constructor | src/catmlib/circuit/voltagesetting.py:28-57 | one zero condition per spacing label, in label order, and no readings |
| VoltageSetting.VoltageSettingData.Condition | src/catmlib/circuit/voltagesetting.py:197-211 | the condition pairs, in label order |
| VoltageSetting.VoltageSettingData.SetCondition | src/catmlib/circuit/voltagesetting.py:59-80 | a list of the wrong length changes nothing and gives None; otherwise the conditions become the list |
| VoltageSetting.VoltageSettingData.CalculateFieldStrength | src/catmlib/circuit/voltagesetting.py:173-194 | the conditions and outcome are those of the field loop over the electrode voltages |
| VoltageSetting.VoltageSettingData.EstimateTrialInputVoltage | src/catmlib/circuit/voltagesetting.py:213-237 | the running sums of the conditions, last gap first |
| VoltageSetting.VoltageSettingData.GetSimulatedSourceVoltageCurrent | src/catmlib/circuit/voltagesetting.py:135-171 | the source voltages and scaled currents of the readings, or the exception the reading raises |
| CatmViewer.ExtrapolatedPosition | src/catmlib/util/catmviewer.py:90-130 | ValueError exactly for a bad axis or a zero direction component; otherwise the point reaches the target on that axis |
| CatmViewer.ExtrapolationOnLine | src/catmlib/util/catmviewer.py:103-127 | the result lies on the line through the position along the direction |
| CatmViewer.ExtrapolationUnique | src/catmlib/util/catmviewer.py:103-127 | it is the only point of that line with the target coordinate |
| CatmViewer.FindNearestIndex | src/catmlib/util/catmviewer.py:55-64 | ValueError exactly for an empty array; otherwise the first index of least distance |
| CatmViewer.NearestIn | src/catmlib/util/catmviewer.py:62-63 | the first index of least distance among the first `n` |
| CatmViewer.Bins | src/catmlib/util/catmviewer.py:30-32 | consecutive integers from the floor of the minimum to the ceiling of the maximum |
| CatmViewer.GetColorList | src/catmlib/util/catmviewer.py:16-45 | empty lists for no values; ValueError exactly for another format; one colour per bin, in hex or rounded RGB |
| CatmViewer.ColorRunTotal | src/catmlib/util/catmviewer.py:47-52 | with the bins of the values themselves, every lookup succeeds and picks the colour of the value's truncation |
| CatmViewer.ColorArrayTotal | src/catmlib/util/catmviewer.py:47-52 | the colour list of the same values always covers `get_color_array` |
| CatmViewer.BinPosition | src/catmlib/util/catmviewer.py:50 | `bins.index(x)` finds `x` at its offset from the first bin |
| CatmViewer.TruncInBins | src/catmlib/util/catmviewer.py:30-31 | the truncation of a value lies between the first and last bin |
| CatmViewer.GetColorArray | src/catmlib/util/catmviewer.py:47-52 | the loop gives the colour of each value's bin, or the first ValueError/IndexError |
| CatmViewer.ColorRun | src/catmlib/util/catmviewer.py:49-50 | one colour per value looked up |
| CatmViewer.ColorRunStops | src/catmlib/util/catmviewer.py:49-50 | the first failing lookup ends the loop with its exception |

## Left out

- Plotting and printing are not modelled. This covers `show_polygon`, `show_pads`, `show_track`, `check_diagram`, the figures of `calculate_xposition_from_charge`, `plot_3d_trajectory`, `plot_2d_trajectory`, `plot_2d_categories`, `spe_draw_histogram`, `draw_*` and the `dump_flag` output. They only draw or print.
- Randomness (`np.random.normal`, `uniform`, `multivariate_normal`) comes in as caller-supplied draws indexed by loop counters. The distribution of the draws is not modelled.
- `np.sin`, `np.cos`, `np.sqrt` and `np.pi` come in as a `Math` record. The only facts the proofs use about them are `sin 0 = 0`, `cos 0 = 1`, `sin^2 + cos^2 = 1` where stated, and non-zero divisors.
- matplotlib's `Path.contains_point` is a caller-supplied predicate. The colormap and `to_hex` are caller-supplied functions. An unknown colormap name (a matplotlib ValueError) is not modelled.
- Floating point is not modelled: numbers are exact reals.
- NaN and infinity are `None` or an exception where the code would produce them. This covers the weighted x of a zero total charge, the gain with a zero divisor, a horizontal track, and an electron count divided by `W = 0`.
- The recorded pad centre of an empty outline is the origin in the model. numpy returns NaN with a warning.
- File I/O, TOML and XML reading (`read_config`, `read_toml_file`, `get_tree`, `get_node`, `get_instance`, `get_block`, `print_tree`, `write_text`, `read_text`) are not modelled. The text readers take the file's lines as a sequence.
- `float(s)` and `int(s)` on arbitrary text are caller-supplied parsers. Unicode digits and whitespace beyond ASCII are not modelled.
- Peak fitting with Minuit (`find_peak`, `fit_calibration_data`, `fit_data`, `gaussian`) is not modelled. The straight-line fit of `calculate_calibration_parameters` is a caller-supplied function returning `(p0, p1)` or an error.
- File-list handling and spectrum loading in `TMultiChannelAnalyzer` are not modelled (`set_data_file_path_list`, `add_data_file_path_list`, `check_data_file`, `set_calibration_file_path`, `set_input_values`, and the one-line setters and getters such as `get_Qmeas` and `set_dEdX`). They wrap globbing, file reading and plotting.
- PySpice is not modelled. The circuit is the list of resistors `build_pyspice_circuit` adds, with their nodes. `execute_simulator`, `get_node_voltage` and `get_source_current` run the simulator; their results are inputs of the voltage-setting model. PySpice's own errors, such as a repeated resistor name, are not modelled.
- `add_stage`, `check_stage_object`, `set_voltages`, `simulate_all_stage`, `simulate_first_stage_volages`, `objective` and `search_first_stage_voltages` are not modelled. They drive the circuit simulator and scipy's optimiser.
- `minitpc_filedcage_configuration` and `gem_plate_configuration` are not modelled beyond the stage descriptions that `double_minitpc_double_thgem` returns. They build PySpice circuits.
- `init_track_simulator`, `chk_mc_prm`, `execute_simulataion`, `value_to_color`, `check_connection`, `check_component_information`, `get_component_title`, `get_center_polygon_distance`, `get_polygon_vertex_distance`, `calculate_track_dipole_magnet_analytical_solution`, `calculate_unit_vector`, `generate_gif` and the `check_*`/`main`/`example` scripts are not modelled. They are drivers, plots or printing.
- Dictionaries are modelled as ordered label and value sequences (the conditions and spaces of `TBaseVoltageSettingData`). A `None` `spaces` argument, an AttributeError in the source, is not modelled.
- BaseCircuit.ComponentArray.BuildNodes: returns sets for the deduplicated lists. The order `list(set(...))` gives is unspecified in Python. The node dictionary is a map, so the order in which junction names first occur is not kept.
- XcfgReader.ClassifyIndices: returns a map, so the order of the keys (the order in which each value first occurs) is not kept. The positions under each key keep their order.
- TrackSimulation.TrackSimulator.constructor: gives `padsinfo`, `track_point`, `track_electron_points`, `track_electron_points_factor` and `track_difused_points` the values null, `None`, `[]`, `0` and `[]`, although `__init__` leaves them unset. The AttributeError raised by reading one of them before it is set is not modelled. So `CalculateDifusedPoint` on a fresh simulator completes and keeps the empty points, and `CalculatePadElectrons`, `CalculatePadCharge` and `SimulatePadCharge` require a pad array to have been set.
- TrackSimulation.SimulatePadCharge: when an event raises, the pad charges and track fields that event and the earlier ones left are not stated. Only the pad layout, the configuration, the tuples and the track point are stated to be kept.
- PeakRemoval.RemoveListed: requires index lists without repetitions. With a repeated index the source deletes a second, different element; `PeakRemoval.DeleteSorted` and `McaAnalysis.MultiChannelAnalyzer.RemoveFittedPeakCalib` still model that case exactly.
- VoltageSetting.TrialInvertsFields: is stated only for non-zero spacings and pressure, and for GEM gaps whose drop is not positive. The code takes `abs(dv)` of a GEM drop, which a positive drop does not invert.
