/** One physical sample of a thin-slice fit: its histogram bank, its flux
  * and normalisation bookkeeping, and its list of incident energies.
  *
  * The first half of the module describes the sample's mutable state as a
  * value (`SampleState`).  The operations that touch several fields at once
  * (scaling the histograms, the data/MC scale, resetting and setting the
  * factor) are functions on that value, and the lemmas there relate them
  * (reset undoes a factor, applying the same factor twice is applying it
  * once, ...).  The class `ThinSliceSample` at the end holds the same state
  * in fields.  Those four methods are proved to move `State()` exactly as
  * the matching function says; every other method names in `modifies` the
  * one field it changes and states that field's new value in its `ensures`.
  */
module ThinSlice {
  import opened Histogram

  datatype Option<T> = None | Some(value: T)

  /** Errors a call reports to its caller. */
  datatype SampleError = InvalidDimension(count: nat)

  datatype Outcome = Pass | Fail(error: SampleError)

  /** The coarse mirror of the fine histograms; absent until it is made. */
  datatype RebinnedBank = RebinnedBank(selection: map<int, Hist>, incident: Hist)

  /** Everything in a sample that its operations change. */
  datatype SampleState = SampleState(
    factor: real,
    nominalFlux: real,
    dataMCScale: real,
    selectionHists: map<int, Hist>,
    incidentHist: Hist,
    trueIncidentHist: Hist,
    rebinned: Option<RebinnedBank>,
    incidentEnergies: seq<(real, real)>)

  /** Fine histograms all well formed, the two incident ones one-dimensional. */
  ghost predicate StateValid(s: SampleState) {
    && (forall id :: id in s.selectionHists ==> WellFormed(s.selectionHists[id]))
    && WellFormed(s.incidentHist) && s.incidentHist.binning.dim == OneD
    && WellFormed(s.trueIncidentHist) && s.trueIncidentHist.binning.dim == OneD
  }

  /** What construction fixes: the channel ids and every histogram's binning. */
  datatype Layout = Layout(selection: map<int, Binning>, incident: Binning, trueIncident: Binning)

  function LayoutOf(s: SampleState): Layout {
    Layout(map id | id in s.selectionHists :: s.selectionHists[id].binning,
           s.incidentHist.binning, s.trueIncidentHist.binning)
  }

  // ---------------------------------------------------------------------
  // Operations on the state, as values

  /** A non-empty set of channel ids has a member to visit next. */
  lemma SomeId(ids: set<int>)
    requires ids != {}
    ensures exists id :: id in ids
  {
    if forall id :: id !in ids {
      assert false;
    }
  }

  /** Scale every histogram of a channel map. */
  function ScaleEach(m: map<int, Hist>, k: real): (r: map<int, Hist>)
    ensures r.Keys == m.Keys
    ensures forall id :: id in m ==> r[id].binning == m[id].binning
    ensures (forall id :: id in m ==> WellFormed(m[id])) ==> (forall id :: id in r ==> WellFormed(r[id]))
  {
    map id | id in m :: Scale(m[id], k)
  }

  /** Fill the histogram of channel `id`, if there is one. */
  function FillSelection(m: map<int, Hist>, id: int, x: seq<real>, w: real): (r: map<int, Hist>)
    requires forall j :: j in m ==> WellFormed(m[j])
    ensures r.Keys == m.Keys
    ensures forall j :: j in r ==> WellFormed(r[j]) && r[j].binning == m[j].binning
    ensures id !in m ==> r == m
    ensures id in m ==> r[id] == Fill(m[id], x, w)
    ensures forall j :: j in m && j != id ==> r[j] == m[j]
  {
    if id in m then m[id := Fill(m[id], x, w)] else m
  }

  /** The incident, every selection and the true-incident histogram scaled by `k`. */
  function ScaleHistsState(s: SampleState, k: real): (r: SampleState)
    ensures LayoutOf(r) == LayoutOf(s)
    ensures StateValid(s) ==> StateValid(r)
    ensures r.factor == s.factor && r.nominalFlux == s.nominalFlux
    ensures r.rebinned == s.rebinned && r.incidentEnergies == s.incidentEnergies
  {
    s.(incidentHist := Scale(s.incidentHist, k),
       selectionHists := ScaleEach(s.selectionHists, k),
       trueIncidentHist := Scale(s.trueIncidentHist, k))
  }

  /** Record a data/MC scale and apply it to histograms and flux, factor untouched. */
  function SetDataMCScaleState(s: SampleState, k: real): (r: SampleState)
    ensures LayoutOf(r) == LayoutOf(s)
    ensures StateValid(s) ==> StateValid(r)
    ensures r.factor == s.factor && r.dataMCScale == k
  {
    ScaleHistsState(s, k).(dataMCScale := k, nominalFlux := s.nominalFlux * k)
  }

  /** Undo the current factor: histograms and flux divided by it, factor back to one. */
  function ResetFactorState(s: SampleState): (r: SampleState)
    requires s.factor != 0.0
    ensures LayoutOf(r) == LayoutOf(s)
    ensures StateValid(s) ==> StateValid(r)
    ensures r.factor == 1.0
  {
    ScaleHistsState(s, 1.0 / s.factor).(nominalFlux := s.nominalFlux * (1.0 / s.factor), factor := 1.0)
  }

  /** Undo the current factor, then apply `k` as the new one. */
  function SetFactorAndScaleState(s: SampleState, k: real): (r: SampleState)
    requires s.factor != 0.0
    ensures LayoutOf(r) == LayoutOf(s)
    ensures StateValid(s) ==> StateValid(r)
    ensures r.factor == k
  {
    var t := ResetFactorState(s);
    ScaleHistsState(t.(factor := k, nominalFlux := t.nominalFlux * k), k)
  }

  /** The stored energies, in list order. */
  function Energies(es: seq<(real, real)>): (r: seq<real>)
    ensures |r| == |es| && forall i :: 0 <= i < |es| ==> r[i] == es[i].0
  {
    seq(|es|, i requires 0 <= i < |es| => es[i].0)
  }

  /** New entries for the values, each with weight one. */
  function Unweighted(vals: seq<real>): (r: seq<(real, real)>)
    ensures |r| == |vals| && forall i :: 0 <= i < |vals| ==> r[i] == (vals[i], 1.0)
  {
    seq(|vals|, i requires 0 <= i < |vals| => (vals[i], 1.0))
  }

  /** Every stored weight multiplied by `k`; energies and order kept. */
  function Reweighted(es: seq<(real, real)>, k: real): (r: seq<(real, real)>)
    ensures |r| == |es|
    ensures forall i :: 0 <= i < |es| ==> r[i].0 == es[i].0 && r[i].1 == es[i].1 * k
  {
    seq(|es|, i requires 0 <= i < |es| => (es[i].0, es[i].1 * k))
  }

  /** What refilling a caller's histogram from the energy list gives. */
  function Refill(s: SampleState, h: Hist): Hist
    requires WellFormed(h)
  {
    FillValues(h, Energies(s.incidentEnergies), s.factor)
  }

  // ---------------------------------------------------------------------
  // Properties of the normalisation bookkeeping

  lemma ScaleEachCompose(m: map<int, Hist>, a: real, b: real, c: real)
    requires a * b == c
    ensures ScaleEach(ScaleEach(m, a), b) == ScaleEach(m, c)
  {
    forall id | id in m ensures ScaleEach(ScaleEach(m, a), b)[id] == ScaleEach(m, c)[id] {
      ScaleComposeTo(m[id], a, b, c);
    }
  }

  lemma ScaleEachOne(m: map<int, Hist>)
    ensures ScaleEach(m, 1.0) == m
  {
    forall id | id in m ensures ScaleEach(m, 1.0)[id] == m[id] {
      ScaleOne(m[id]);
    }
  }

  /** Scaling the histograms twice is scaling them once by the product. */
  lemma ScaleHistsCompose(s: SampleState, a: real, b: real, c: real)
    requires a * b == c
    ensures ScaleHistsState(ScaleHistsState(s, a), b) == ScaleHistsState(s, c)
  {
    ScaleComposeTo(s.incidentHist, a, b, c);
    ScaleComposeTo(s.trueIncidentHist, a, b, c);
    ScaleEachCompose(s.selectionHists, a, b, c);
  }

  lemma ScaleHistsOne(s: SampleState)
    ensures ScaleHistsState(s, 1.0) == s
  {
    ScaleOne(s.incidentHist);
    ScaleOne(s.trueIncidentHist);
    ScaleEachOne(s.selectionHists);
  }

  /** Setting a factor scales histograms and flux by the new factor over the
    * old one: the net scale relative to the unscaled baseline is `k`. */
  lemma SetFactorAndScaleNet(s: SampleState, k: real)
    requires s.factor != 0.0
    ensures SetFactorAndScaleState(s, k)
         == ScaleHistsState(s, k / s.factor).(factor := k, nominalFlux := s.nominalFlux * (k / s.factor))
  {
    var a := 1.0 / s.factor;
    ScaleHistsCompose(s, a, k, k / s.factor);
    FluxCompose(s.nominalFlux, a, k, k / s.factor);
  }

  lemma FluxCompose(x: real, a: real, b: real, c: real)
    requires a * b == c
    ensures x * a * b == x * c
  {
  }

  /** Resetting after a new factor gives what resetting before it gives:
    * the unscaled baseline does not move. */
  lemma ResetAfterSetFactor(s: SampleState, k: real)
    requires s.factor != 0.0 && k != 0.0
    ensures ResetFactorState(SetFactorAndScaleState(s, k)) == ResetFactorState(s)
  {
    var f := s.factor;
    var a := k / f;
    SetFactorAndScaleNet(s, k);
    assert a * (1.0 / k) == 1.0 / f;
    ScaleHistsCompose(s, a, 1.0 / k, 1.0 / f);
    FluxCompose(s.nominalFlux, a, 1.0 / k, 1.0 / f);
  }

  /** From an unscaled sample, applying `k` and then resetting gives back
    * every histogram and the flux exactly. */
  lemma ResetUndoesSetFactor(s: SampleState, k: real)
    requires s.factor == 1.0 && k != 0.0
    ensures ResetFactorState(SetFactorAndScaleState(s, k)) == s
  {
    ResetAfterSetFactor(s, k);
    ScaleHistsOne(s);
  }

  /** Applying the same factor twice leaves the state one application leaves. */
  lemma SetFactorAndScaleIdempotent(s: SampleState, k: real)
    requires s.factor != 0.0 && k != 0.0
    ensures SetFactorAndScaleState(SetFactorAndScaleState(s, k), k) == SetFactorAndScaleState(s, k)
  {
    var once := SetFactorAndScaleState(s, k);
    ResetAfterSetFactor(s, k);
    assert ResetFactorState(once) == ResetFactorState(s);
  }

  /** A data/MC scale does not enter the factor, so a later reset keeps it:
    * it becomes part of the baseline. */
  lemma ResetKeepsDataMCScale(s: SampleState, k: real)
    requires s.factor != 0.0
    ensures ResetFactorState(SetDataMCScaleState(s, k)) == SetDataMCScaleState(ResetFactorState(s), k)
  {
    var a := 1.0 / s.factor;
    ScaleHistsCompose(s, k, a, k * a);
    ScaleHistsCompose(s, a, k, k * a);
    FluxCompose(s.nominalFlux, k, a, k * a);
    FluxCompose(s.nominalFlux, a, k, k * a);
  }

  // ---------------------------------------------------------------------
  // Properties of the incident-energy list

  /** After an append the list's energies are the old ones, then the new values. */
  lemma EnergiesAfterAdd(es: seq<(real, real)>, vals: seq<real>)
    ensures Energies(es + Unweighted(vals)) == Energies(es) + vals
  {
  }

  /** Adding values and refilling fills at the old energies, then at the new
    * values, each with the sample factor as weight. */
  lemma RefillAfterAdd(s: SampleState, h: Hist, vals: seq<real>)
    requires WellFormed(h)
    ensures Refill(s.(incidentEnergies := s.incidentEnergies + Unweighted(vals)), h)
         == FillValues(Refill(s, h), vals, s.factor)
  {
    EnergiesAfterAdd(s.incidentEnergies, vals);
    FillValuesAppend(h, Energies(s.incidentEnergies), vals, s.factor);
  }

  /** Reweighting the list does not change what a refill produces: the refill
    * weights every entry by the sample factor, never by its stored weight. */
  lemma RefillIgnoresWeights(s: SampleState, h: Hist, k: real)
    requires WellFormed(h)
    ensures Refill(s.(incidentEnergies := Reweighted(s.incidentEnergies, k)), h) == Refill(s, h)
  {
    assert Energies(Reweighted(s.incidentEnergies, k)) == Energies(s.incidentEnergies);
  }

  /** A refill adds the sample factor once per stored entry to the integral. */
  lemma RefillSum(s: SampleState, h: Hist)
    requires WellFormed(h) && h.binning.dim == OneD
    ensures Sum(Refill(s, h).contents) == Sum(h.contents) + (|s.incidentEnergies| as real) * s.factor
  {
    FillValuesSum(h, Energies(s.incidentEnergies), s.factor);
    TimesIsProduct(|s.incidentEnergies|, s.factor);
  }

  // ---------------------------------------------------------------------
  // Signal range

  /** The signal range is the half-open interval (low, high]. */
  function InSignalRange(range: (real, real), v: real): (r: bool)
    ensures v == range.0 ==> !r
    ensures v == range.1 ==> (r <==> range.0 < range.1)
    ensures v < range.0 || range.1 < v ==> !r
    ensures range.0 < v < range.1 ==> r
  {
    range.0 < v && v <= range.1
  }

  /** Two samples whose ranges meet at `mid` never both claim a value, and
    * together claim every value of the joint range. */
  lemma AdjacentRangesPartition(low: real, mid: real, high: real, v: real)
    requires low <= mid <= high
    ensures !(InSignalRange((low, mid), v) && InSignalRange((mid, high), v))
    ensures InSignalRange((low, high), v) <==> InSignalRange((low, mid), v) || InSignalRange((mid, high), v)
  {
  }

  // ---------------------------------------------------------------------
  // The sample object

  class ThinSliceSample {
    const name: string
    const fluxType: int
    const isSignal: bool
    const range: (real, real)

    var factor: real
    var nominalFlux: real
    var dataMCScale: real
    var selectionHists: map<int, Hist>
    var incidentHist: Hist
    var trueIncidentHist: Hist
    var rebinned: Option<RebinnedBank>
    var incidentEnergies: seq<(real, real)>

    ghost function State(): SampleState
      reads this
    {
      SampleState(factor, nominalFlux, dataMCScale, selectionHists, incidentHist,
                      trueIncidentHist, rebinned, incidentEnergies)
    }

    ghost predicate Valid()
      reads this
    {
      StateValid(State())
    }

    /** A sample booked from already validated selection binnings (one per
      * channel id) and the two incident-energy binnings. */
    constructor (name: string, fluxType: int, selections: map<int, Binning>,
                 incidentBins: Binning, trueIncidentBins: Binning,
                 isSignal: bool := false, range: (real, real) := (0.0, 0.0))
      requires forall id :: id in selections ==> BinningOk(selections[id])
      requires BinningOk(incidentBins) && incidentBins.dim == OneD
      requires BinningOk(trueIncidentBins) && trueIncidentBins.dim == OneD
      ensures Valid()
      ensures this.name == name && this.fluxType == fluxType
      ensures this.isSignal == isSignal && this.range == range
      ensures factor == 1.0 && nominalFlux == 0.0 && dataMCScale == 1.0
      ensures selectionHists == map id | id in selections :: Empty(selections[id])
      ensures incidentHist == Empty(incidentBins) && trueIncidentHist == Empty(trueIncidentBins)
      ensures rebinned == None && incidentEnergies == []
    {
      this.name := name;
      this.fluxType := fluxType;
      this.isSignal := isSignal;
      this.range := range;
      factor := 1.0;
      nominalFlux := 0.0;
      dataMCScale := 1.0;
      selectionHists := map id | id in selections :: Empty(selections[id]);
      incidentHist := Empty(incidentBins);
      trueIncidentHist := Empty(trueIncidentBins);
      rebinned := None;
      incidentEnergies := [];
    }

    function GetName(): string { name }

    function GetFluxType(): int { fluxType }

    function GetNominalFlux(): real reads this { nominalFlux }

    function GetRange(): (real, real) { range }

    function CheckIsSignal(): bool { isSignal }

    function CheckInSignalRange(v: real): bool {
      InSignalRange(range, v)
    }

    /** The low end itself is never in the signal range. */
    function RangeLowEnd(): (r: real)
      ensures !CheckInSignalRange(r)
    {
      range.0
    }

    /** The high end is in the signal range exactly when the range is not empty. */
    function RangeHighEnd(): (r: real)
      ensures CheckInSignalRange(r) <==> RangeLowEnd() < r
    {
      range.1
    }

    method SetFactor(f: real)
      modifies this`factor
      ensures factor == f
    {
      factor := f;
    }

    method AddFlux(val: real := 1.0)
      modifies this`nominalFlux
      ensures nominalFlux == old(nominalFlux) + val
    {
      nominalFlux := nominalFlux + val;
    }

    method FillIncidentHist(vals: seq<real>)
      requires Valid()
      modifies this`incidentHist
      ensures Valid()
      ensures incidentHist == FillValues(old(incidentHist), vals, 1.0)
    {
      var i := 0;
      while i < |vals|
        invariant 0 <= i <= |vals|
        invariant incidentHist == FillValues(old(incidentHist), vals[..i], 1.0)
      {
        assert vals[..i + 1][..i] == vals[..i];
        incidentHist := Fill(incidentHist, [vals[i]], 1.0);
        i := i + 1;
      }
      assert vals[..i] == vals;
    }

    method FillTrueIncidentHist(vals: seq<real>)
      requires Valid()
      modifies this`trueIncidentHist
      ensures Valid()
      ensures trueIncidentHist == FillValues(old(trueIncidentHist), vals, 1.0)
    {
      var i := 0;
      while i < |vals|
        invariant 0 <= i <= |vals|
        invariant trueIncidentHist == FillValues(old(trueIncidentHist), vals[..i], 1.0)
      {
        assert vals[..i + 1][..i] == vals[..i];
        trueIncidentHist := Fill(trueIncidentHist, [vals[i]], 1.0);
        i := i + 1;
      }
      assert vals[..i] == vals;
    }

    method AddIncidentEnergies(vals: seq<real>)
      modifies this`incidentEnergies
      ensures incidentEnergies == old(incidentEnergies) + Unweighted(vals)
    {
      var i := 0;
      while i < |vals|
        invariant 0 <= i <= |vals|
        invariant incidentEnergies == old(incidentEnergies) + Unweighted(vals[..i])
      {
        incidentEnergies := incidentEnergies + [(vals[i], 1.0)];
        i := i + 1;
      }
      assert vals[..i] == vals;
    }

    /** Fill channel `id` with one value; an unknown id is ignored. */
    method FillSelectionHist(id: int, val: real)
      requires Valid()
      modifies this`selectionHists
      ensures Valid()
      ensures selectionHists == FillSelection(old(selectionHists), id, [val], 1.0)
    {
      if id in selectionHists {
        selectionHists := selectionHists[id := Fill(selectionHists[id], [val], 1.0)];
      }
    }

    /** Fill channel `id` with a tuple of one to three coordinates; any other
      * count is an error, reported before the id is looked up. */
    method FillSelectionHistValues(id: int, vals: seq<real>) returns (outcome: Outcome)
      requires Valid()
      modifies this`selectionHists
      ensures Valid()
      ensures outcome == if 1 <= |vals| <= 3 then Pass else Fail(InvalidDimension(|vals|))
      ensures selectionHists == if outcome.Pass? then FillSelection(old(selectionHists), id, vals, 1.0)
                                else old(selectionHists)
    {
      if |vals| < 1 || |vals| > 3 {
        return Fail(InvalidDimension(|vals|));
      }
      if id in selectionHists {
        selectionHists := selectionHists[id := Fill(selectionHists[id], vals, 1.0)];
      }
      return Pass;
    }

    /** Fill the caller's histogram once per stored entry, at its energy and
      * with the sample factor as weight; the sample itself is not changed. */
    method FillHistFromIncidentEnergies(h: Hist) returns (r: Hist)
      requires WellFormed(h) && h.binning.dim == OneD
      ensures r == Refill(State(), h)
      ensures forall b :: 0 <= b < |h.contents| ==>
        r.contents[b] == h.contents[b] + Times(Hits(h.binning, Energies(incidentEnergies), b), factor)
    {
      var energies := Energies(incidentEnergies);
      r := h;
      var i := 0;
      while i < |incidentEnergies|
        invariant 0 <= i <= |incidentEnergies|
        invariant r == FillValues(h, energies[..i], factor)
      {
        assert energies[..i + 1][..i] == energies[..i];
        r := Fill(r, [energies[i]], factor);
        i := i + 1;
      }
      assert energies[..i] == energies;
      forall b | 0 <= b < |h.contents|
        ensures r.contents[b] == h.contents[b] + Times(Hits(h.binning, energies, b), factor)
      {
        FillValuesBin(h, energies, factor, b);
      }
    }

    method ScaleHists(k: real)
      requires Valid()
      modifies this`incidentHist, this`selectionHists, this`trueIncidentHist
      ensures Valid()
      ensures State() == ScaleHistsState(old(State()), k)
    {
      incidentHist := Scale(incidentHist, k);
      var todo := selectionHists.Keys;
      while todo != {}
        invariant incidentHist == Scale(old(incidentHist), k)
        invariant trueIncidentHist == old(trueIncidentHist)
        invariant todo <= selectionHists.Keys == old(selectionHists).Keys
        invariant forall id :: id in selectionHists ==>
          selectionHists[id] == if id in todo then old(selectionHists)[id] else Scale(old(selectionHists)[id], k)
        decreases todo
      {
        SomeId(todo);
        var id :| id in todo;
        selectionHists := selectionHists[id := Scale(selectionHists[id], k)];
        todo := todo - {id};
      }
      forall id | id in selectionHists ensures selectionHists[id] == ScaleEach(old(selectionHists), k)[id] {
      }
      assert selectionHists == ScaleEach(old(selectionHists), k);
      trueIncidentHist := Scale(trueIncidentHist, k);
    }

    method ScaleIncidentEnergies(k: real)
      modifies this`incidentEnergies
      ensures incidentEnergies == Reweighted(old(incidentEnergies), k)
    {
      var i := 0;
      while i < |incidentEnergies|
        invariant 0 <= i <= |incidentEnergies| == |old(incidentEnergies)|
        invariant forall j :: 0 <= j < i ==>
          incidentEnergies[j].0 == old(incidentEnergies)[j].0 && incidentEnergies[j].1 == old(incidentEnergies)[j].1 * k
        invariant forall j :: i <= j < |incidentEnergies| ==> incidentEnergies[j] == old(incidentEnergies)[j]
      {
        incidentEnergies := incidentEnergies[i := (incidentEnergies[i].0, incidentEnergies[i].1 * k)];
        i := i + 1;
      }
    }

    method SetDataMCScale(k: real)
      requires Valid()
      modifies this`dataMCScale, this`nominalFlux, this`incidentHist, this`selectionHists, this`trueIncidentHist
      ensures Valid()
      ensures State() == SetDataMCScaleState(old(State()), k)
    {
      dataMCScale := k;
      ScaleHists(dataMCScale);
      nominalFlux := nominalFlux * k;
    }

    method SetFactorAndScale(k: real)
      requires Valid() && factor != 0.0
      modifies this`factor, this`nominalFlux, this`incidentHist, this`selectionHists, this`trueIncidentHist
      ensures Valid()
      ensures State() == SetFactorAndScaleState(old(State()), k)
    {
      ResetFactor();
      factor := k;
      nominalFlux := nominalFlux * k;
      ScaleHists(k);
    }

    method ResetFactor()
      requires Valid() && factor != 0.0
      modifies this`factor, this`nominalFlux, this`incidentHist, this`selectionHists, this`trueIncidentHist
      ensures Valid()
      ensures State() == ResetFactorState(old(State()))
    {
      ScaleHists(1.0 / factor);
      nominalFlux := nominalFlux * (1.0 / factor);
      factor := 1.0;
    }
  }
}
