# ThinSliceSample: normalisation and fill bookkeeping

A Dafny model of `protoana::ThinSliceSample`, the container for one physical
sample in a thin-slice fit. The class keeps:

- a bank of fine histograms: one per selection channel id, plus the incident
  and true-incident energy histograms;
- a flux accumulator (`nominalFlux`);
- the current normalisation factor (`factor`) and the last data/MC scale;
- a signal flag with a half-open kinetic-energy range `(low, high]`;
- an ordered list of `(energy, weight)` pairs that can later refill a
  caller's histogram.

The project has two modules.

- `Histogram` (histogram.dfy) stands in for the histogram library, which is
  outside the model. A histogram is a binning plus one content per global
  bin. The binning carries an explicit dimension tag (`OneD`, `TwoD`,
  `ThreeD`), the bin count and an arbitrary total bin lookup `locate`. Under-
  and overflow are ordinary bins, so every coordinate lands in some bin.
  `Fill(h, x, w)` adds `w` to the bin `locate(x)` picks. `Scale(h, k)`
  multiplies every bin by `k`.
- `ThinSlice` (thin_slice_sample.dfy) holds the sample. Its mutable state is
  first described as a value, `SampleState`. The operations that change
  several fields at once (`ScaleHists`, `SetDataMCScale`, `ResetFactor`,
  `SetFactorAndScale`) are functions on that value, and lemmas relate them.
  The class `ThinSliceSample` keeps the same state in fields (`real` for every
  scalar). Those four methods are proved to move the ghost view `State()`
  exactly as the matching function says. The other methods each change one
  field; their `ensures` state that field's new value, and their `modifies`
  clause names only that field, so the rest provably stays put. The refill
  `FillHistFromIncidentEnergies` changes nothing and is proved to return
  `Refill(State(), h)`.

Dafny `real` replaces `double`, so scaling and then unscaling is exact. The
selection map is a `map<int, Hist>`. The incident-energy list is a
`seq<(real, real)>`.

`ResetFactor` does not check for a zero factor; it simply divides by it. The
model therefore states a non-zero factor as a precondition rather than
modelling an error path.

## Model

| member | source | states |
|---|---|---|
| `ThinSlice.ThinSliceSample.constructor` | protoduneana/Utilities/FitUtils/ThinSliceSample.h:172-190 | A new sample has factor 1, flux 0 and data/MC scale 1. It has one empty histogram per configured channel and empty incident histograms, no rebinned bank and no incident energies. |
| `ThinSlice.ThinSliceSample.SetFactor` | protoduneana/Utilities/FitUtils/ThinSliceSample.h:31 | Only the factor changes, and it becomes the given value. |
| `ThinSlice.ThinSliceSample.AddFlux` | protoduneana/Utilities/FitUtils/ThinSliceSample.h:69-71 | The flux grows by exactly `val` (1.0 by default). Nothing else changes. |
| `ThinSlice.ThinSliceSample.FillIncidentHist` | protoduneana/Utilities/FitUtils/ThinSliceSample.h:73-77 | Only the incident histogram changes. It receives one weight-1 fill per value, in input order. |
| `ThinSlice.ThinSliceSample.FillTrueIncidentHist` | protoduneana/Utilities/FitUtils/ThinSliceSample.h:84-88 | Only the true-incident histogram changes. It receives one weight-1 fill per value, in input order. |
| `Histogram.FillValuesBin` | protoduneana/Utilities/FitUtils/ThinSliceSample.h:73-77 | After a run of 1-D fills, each bin holds its old content plus one weight for every value the lookup sent to it. |
| `Histogram.FillValuesSum` | protoduneana/Utilities/FitUtils/ThinSliceSample.h:73-77 | A run of 1-D fills adds the weight once per value to the histogram's integral, so every value is processed exactly once. |
| `Histogram.FillValuesReorder` | protoduneana/Utilities/FitUtils/ThinSliceSample.h:84-88 | Filling the same values in any order gives the same histogram. |
| `Histogram.HitsPermutation` | protoduneana/Utilities/FitUtils/ThinSliceSample.h:84-88 | The number of values sent to a bin depends only on the multiset of values. |
| `Histogram.FillValuesAppend` | protoduneana/Utilities/FitUtils/ThinSliceSample.h:73-77 | Filling in two calls gives the same histogram as one call with the concatenated values. |
| `ThinSlice.ThinSliceSample.AddIncidentEnergies` | protoduneana/Utilities/FitUtils/ThinSliceSample.h:79-82 | The old list is kept as a prefix, then one `(v, 1.0)` entry follows per input value, in order. No histogram changes. |
| `ThinSlice.Unweighted` | protoduneana/Utilities/FitUtils/ThinSliceSample.h:79-82 | The appended entries match the inputs one to one and in order: each holds the input value with weight 1. |
| `ThinSlice.EnergiesAfterAdd` | protoduneana/Utilities/FitUtils/ThinSliceSample.h:79-82 | After an append, the list's energies are the old energies followed by the added values. |
| `ThinSlice.FillSelection` | protoduneana/Utilities/FitUtils/ThinSliceSample.h:90-94 | An unknown id leaves the whole map unchanged. A known id gets exactly one fill, and every other channel and the key set stay the same. |
| `ThinSlice.ThinSliceSample.FillSelectionHist` | protoduneana/Utilities/FitUtils/ThinSliceSample.h:90-94 | Only the selection map changes: by one fill of `[val]` in channel `id`, or not at all when the id is unknown. The call never fails. |
| `ThinSlice.ThinSliceSample.FillSelectionHistValues` | protoduneana/Utilities/FitUtils/ThinSliceSample.h:96-114 | A count outside 1..3 returns `InvalidDimension(count)` and changes nothing, whatever the id. Otherwise the call passes and fills channel `id`, if present, with all coordinates. |
| `ThinSlice.ThinSliceSample.FillHistFromIncidentEnergies` | protoduneana/Utilities/FitUtils/ThinSliceSample.h:116-120 | The caller's histogram gets one fill per stored entry, in list order, at that entry's energy with weight `factor`: the result is `Refill` of the current state. Each bin gains `factor` once per entry that lands in it. The sample is not changed. |
| `ThinSlice.RefillIgnoresWeights` | protoduneana/Utilities/FitUtils/ThinSliceSample.h:116-120 | Reweighting the stored entries does not change what a refill produces, because stored weights are never read. |
| `ThinSlice.RefillAfterAdd` | protoduneana/Utilities/FitUtils/ThinSliceSample.h:79-82 | Refilling after an append equals refilling from the old list and then filling each added value, in order, with weight `factor`. |
| `ThinSlice.RefillSum` | protoduneana/Utilities/FitUtils/ThinSliceSample.h:116-120 | A refill adds `entries × factor` to the caller histogram's integral. |
| `ThinSlice.ScaleEach` | protoduneana/Utilities/FitUtils/ThinSliceSample.h:124-126 | Scaling the selection map keeps its key set, every binning and well-formedness. |
| `ThinSlice.ScaleHistsState` | protoduneana/Utilities/FitUtils/ThinSliceSample.h:122-129 | Histogram scaling keeps the layout (ids and binnings) and validity. It leaves the factor, the flux, the rebinned bank and the incident-energy list unchanged. |
| `ThinSlice.ThinSliceSample.ScaleHists` | protoduneana/Utilities/FitUtils/ThinSliceSample.h:122-129 | The incident, every selection and the true-incident histogram are multiplied by `k`, visiting channel ids in any order. No other field changes. |
| `Histogram.SumScale` | protoduneana/Utilities/FitUtils/ThinSliceSample.h:122-129 | Scaling a histogram by `k` multiplies its integral by `k`. |
| `Histogram.ScaleCompose` | protoduneana/Utilities/FitUtils/ThinSliceSample.h:145-158 | Scaling by `a` and then by `b` is scaling by `a * b`. |
| `ThinSlice.ThinSliceSample.ScaleIncidentEnergies` | protoduneana/Utilities/FitUtils/ThinSliceSample.h:131-136 | Every stored weight is multiplied by `k`. Energies, order and length are kept, and nothing else changes. |
| `ThinSlice.Reweighted` | protoduneana/Utilities/FitUtils/ThinSliceSample.h:131-136 | Reweighting keeps the length and each energy, and multiplies each weight by `k`. |
| `ThinSlice.SetDataMCScaleState` | protoduneana/Utilities/FitUtils/ThinSliceSample.h:138-143 | Applying a data/MC scale records `k`, keeps the layout and leaves the factor untouched. |
| `ThinSlice.ThinSliceSample.SetDataMCScale` | protoduneana/Utilities/FitUtils/ThinSliceSample.h:138-143 | The state moves as `SetDataMCScaleState` says: `k` is recorded, histograms and flux are scaled by `k`, and the factor is kept. |
| `ThinSlice.ResetKeepsDataMCScale` | protoduneana/Utilities/FitUtils/ThinSliceSample.h:138-158 | A later reset does not undo a data/MC scale. Resetting after the scale equals scaling the reset state, so the scale becomes part of the baseline. |
| `ThinSlice.ResetFactorState` | protoduneana/Utilities/FitUtils/ThinSliceSample.h:153-158 | A reset keeps the layout and validity and leaves the factor at 1. |
| `ThinSlice.ThinSliceSample.ResetFactor` | protoduneana/Utilities/FitUtils/ThinSliceSample.h:153-158 | For a non-zero factor, histograms and flux are multiplied by `1/factor` and the factor becomes 1. |
| `ThinSlice.SetFactorAndScaleState` | protoduneana/Utilities/FitUtils/ThinSliceSample.h:145-151 | Setting a factor keeps the layout and validity and leaves the factor equal to `k`. |
| `ThinSlice.ThinSliceSample.SetFactorAndScale` | protoduneana/Utilities/FitUtils/ThinSliceSample.h:145-151 | The call resets first, then sets the factor to `k` and scales flux and histograms by `k`. |
| `ThinSlice.SetFactorAndScaleNet` | protoduneana/Utilities/FitUtils/ThinSliceSample.h:145-158 | Setting factor `k` over factor `f` scales histograms and flux by `k / f`, so the net scale over the unscaled baseline is `k`. |
| `ThinSlice.ResetAfterSetFactor` | protoduneana/Utilities/FitUtils/ThinSliceSample.h:145-158 | Resetting after setting a non-zero factor gives the same state as resetting before it. |
| `ThinSlice.ResetUndoesSetFactor` | protoduneana/Utilities/FitUtils/ThinSliceSample.h:145-158 | From factor 1, setting a non-zero `k` and then resetting restores every histogram and the flux exactly. |
| `ThinSlice.SetFactorAndScaleIdempotent` | protoduneana/Utilities/FitUtils/ThinSliceSample.h:145-158 | Applying the same non-zero factor twice gives the same state as applying it once. |
| `ThinSlice.InSignalRange` | protoduneana/Utilities/FitUtils/ThinSliceSample.h:161-162 | The range is `(low, high]`. The low end is excluded, the high end is included when `low < high`, values outside are excluded and values strictly inside are included. |
| `ThinSlice.AdjacentRangesPartition` | protoduneana/Utilities/FitUtils/ThinSliceSample.h:161-162 | Two ranges meeting at `mid` never both claim a value, and together they claim exactly the joint range. |
| `ThinSlice.ThinSliceSample.RangeLowEnd` | protoduneana/Utilities/FitUtils/ThinSliceSample.h:163 | The low end itself is never in the signal range. |
| `ThinSlice.ThinSliceSample.RangeHighEnd` | protoduneana/Utilities/FitUtils/ThinSliceSample.h:164 | The high end is in the signal range exactly when it is above the low end. |

`CheckInSignalRange` forwards to `InSignalRange`. `CheckIsSignal`, `GetName`,
`GetFluxType`, `GetNominalFlux` and `GetRange` (lines 57-67, 160, 166) return
their field and carry no contract of their own.

## Left out

- `MakeRebinnedHists`, `RefillRebinnedHists` and `Rebin1D`/`Rebin2D`/`Rebin3D` (lines 168-169, 180-182) are declared in the header without bodies. The rebinned bank is state that every modelled operation provably leaves alone. Rebinning and integral preservation are not modelled.
- The constructor (lines 22-27) parses configuration records whose format and body are not part of this model, and picks edge sets by beam-energy bin. The model's constructor takes already validated binnings, one per channel id, and the two incident binnings.
- `PreciseToString` (line 15) is declared only, and it formats doubles as text.
- The getters that return histogram pointers or references (lines 33-55) are not modelled, nor is the empty destructor (line 29). That includes `GetSelectionHist`, whose `.at` throws on an unknown id. These concern memory and ownership, not bookkeeping.
- The histogram library is abstracted. Axis edges and the real bin search are replaced by an arbitrary total lookup. Entry counts and sum-of-squares errors are not modelled.
- Fills whose coordinate count differs from the histogram's dimension are no-ops in the model. In the source (lines 104-112) the two- and three-value fills cast the channel's histogram without a check, so a two-value fill into a 1-D or 3-D histogram and a three-value fill into a 1-D or 2-D histogram are undefined behaviour; a one-value fill into a 2-D or 3-D histogram is reported and ignored by the library.
- `ThinSlice.ThinSliceSample.ResetFactor`: requires a non-zero factor. With factor 0 the source divides by zero and scales by an IEEE infinity, which reals cannot express.
- `ThinSlice.ThinSliceSample.SetFactorAndScale`: requires a non-zero current factor, because it resets first.
- `ThinSlice.ThinSliceSample.FillHistFromIncidentEnergies`: returns the filled copy of the caller's histogram instead of updating it through a reference, so aliasing between that histogram and the sample's own histograms is not modelled.
- Floating-point rounding: `real` makes the scale/unscale round trips exact, not merely close.
- The order in which `ScaleHists` visits the channel map is left open. Every order gives the same result.
- A zero-length coordinate array cannot be written in the source's template form. The model accepts one and reports `InvalidDimension(0)`.
