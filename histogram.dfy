/** An abstract view of the histograms a sample fills and scales.
  *
  * The histogram library itself (axis storage, bin search, under- and
  * overflow handling) is outside this model.  A histogram is its binning,
  * fixed when it is created, and the content of each global bin.  The
  * binning carries an explicit dimension tag and an arbitrary bin lookup
  * `locate`: any total map from a coordinate tuple to a global bin index
  * (under- and overflow bins included, so every coordinate lands somewhere).
  */
module Histogram {

  /** Number of axes: the tag that replaces casting a 1-D handle to 2-D or 3-D. */
  datatype Dim = OneD | TwoD | ThreeD

  function Arity(d: Dim): nat {
    match d
    case OneD => 1
    case TwoD => 2
    case ThreeD => 3
  }

  datatype Binning = Binning(dim: Dim, nbins: nat, locate: seq<real> -> nat)

  datatype Hist = Hist(binning: Binning, contents: seq<real>)

  /** Every coordinate tuple is sent to one of the bins. */
  ghost predicate BinningOk(b: Binning) {
    forall x :: b.locate(x) < b.nbins
  }

  ghost predicate WellFormed(h: Hist) {
    BinningOk(h.binning) && |h.contents| == h.binning.nbins
  }

  /** A freshly booked histogram: every bin empty. */
  function Empty(b: Binning): (h: Hist)
    requires BinningOk(b)
    ensures WellFormed(h) && h.binning == b
    ensures Sum(h.contents) == 0.0
  {
    var h := Hist(b, seq(b.nbins, _ => 0.0));
    SumZero(h.contents);
    h
  }

  /** Sum of the bin contents (the histogram's integral, flow bins included). */
  function Sum(s: seq<real>): real {
    if s == [] then 0.0 else Sum(s[..|s| - 1]) + s[|s| - 1]
  }

  /** One fill with weight `w` at coordinates `x`.  A tuple whose length
    * differs from the histogram's dimension adds nothing. */
  function Fill(h: Hist, x: seq<real>, w: real): (r: Hist)
    requires WellFormed(h)
    ensures WellFormed(r) && r.binning == h.binning
    ensures |x| != Arity(h.binning.dim) ==> r == h
  {
    if |x| == Arity(h.binning.dim) then
      var b := h.binning.locate(x);
      h.(contents := h.contents[b := h.contents[b] + w])
    else
      h
  }

  /** A fill of the right dimension adds `w` to the bin the lookup picks
    * and to no other. */
  lemma FillBin(h: Hist, x: seq<real>, w: real, b: nat)
    requires WellFormed(h) && |x| == Arity(h.binning.dim) && b < |h.contents|
    ensures Fill(h, x, w).contents[b] == h.contents[b] + (if h.binning.locate(x) == b then w else 0.0)
  {
  }

  /** A fill of the right dimension adds `w` to the integral. */
  lemma FillSum(h: Hist, x: seq<real>, w: real)
    requires WellFormed(h) && |x| == Arity(h.binning.dim)
    ensures Sum(Fill(h, x, w).contents) == Sum(h.contents) + w
  {
    SumUpdate(h.contents, h.binning.locate(x), w);
  }

  /** Multiply every bin content by `k`; the binning is kept. */
  function Scale(h: Hist, k: real): (r: Hist)
    ensures r.binning == h.binning && |r.contents| == |h.contents|
    ensures WellFormed(h) ==> WellFormed(r)
  {
    h.(contents := ScaleSeq(h.contents, k))
  }

  function ScaleSeq(s: seq<real>, k: real): (t: seq<real>)
    ensures |t| == |s| && forall i :: 0 <= i < |s| ==> t[i] == k * s[i]
  {
    seq(|s|, i requires 0 <= i < |s| => k * s[i])
  }

  /** One 1-D fill per value, in order, each with weight `w`. */
  function FillValues(h: Hist, vals: seq<real>, w: real): (r: Hist)
    requires WellFormed(h)
    ensures WellFormed(r) && r.binning == h.binning
    decreases |vals|
  {
    if vals == [] then h
    else Fill(FillValues(h, vals[..|vals| - 1], w), [vals[|vals| - 1]], w)
  }

  /** How many of `vals` the lookup sends to bin `b`. */
  function Hits(binning: Binning, vals: seq<real>, b: nat): nat
    decreases |vals|
  {
    if vals == [] then 0
    else Hits(binning, vals[..|vals| - 1], b) + (if binning.locate([vals[|vals| - 1]]) == b then 1 else 0)
  }

  lemma {:induction false} SumZero(s: seq<real>)
    requires forall i :: 0 <= i < |s| ==> s[i] == 0.0
    ensures Sum(s) == 0.0
  {
    if s != [] {
      SumZero(s[..|s| - 1]);
    }
  }

  /** Adding `w` to one bin adds `w` to the integral. */
  lemma {:induction false} SumUpdate(s: seq<real>, b: nat, w: real)
    requires b < |s|
    ensures Sum(s[b := s[b] + w]) == Sum(s) + w
  {
    var t := s[b := s[b] + w];
    var n := |s| - 1;
    assert t[..n] == if b < n then s[..n][b := s[b] + w] else s[..n];
    if b < n {
      SumUpdate(s[..n], b, w);
    }
  }

  /** Scaling every bin scales the integral. */
  lemma SumScale(h: Hist, k: real)
    ensures Sum(Scale(h, k).contents) == k * Sum(h.contents)
  {
    SumScaleSeq(h.contents, k);
  }

  lemma {:induction false} SumScaleSeq(s: seq<real>, k: real)
    ensures Sum(ScaleSeq(s, k)) == k * Sum(s)
    decreases |s|
  {
    if s != [] {
      var n := |s| - 1;
      var t := ScaleSeq(s, k);
      forall i | 0 <= i < n ensures t[..n][i] == ScaleSeq(s[..n], k)[i] {
        assert s[..n][i] == s[i];
      }
      assert t[..n] == ScaleSeq(s[..n], k);
      SumScaleSeq(s[..n], k);
      assert Sum(t) == k * Sum(s[..n]) + k * s[n];
    }
  }

  /** Two scalings make one scaling by their product `c`. */
  lemma ScaleComposeTo(h: Hist, a: real, b: real, c: real)
    requires a * b == c
    ensures Scale(Scale(h, a), b) == Scale(h, c)
  {
    ScaleCompose(h, a, b);
  }

  /** Two scalings make one scaling by the product. */
  lemma ScaleCompose(h: Hist, a: real, b: real)
    ensures Scale(Scale(h, a), b) == Scale(h, a * b)
  {
    var l := Scale(Scale(h, a), b).contents;
    var r := Scale(h, a * b).contents;
    forall i | 0 <= i < |h.contents| ensures l[i] == r[i] {
      assert l[i] == b * (a * h.contents[i]);
    }
  }

  /** Scaling by one changes nothing. */
  lemma ScaleOne(h: Hist)
    ensures Scale(h, 1.0) == h
  {
    assert Scale(h, 1.0).contents == h.contents;
  }

  /** `n` copies of `w` added up: the weight `n` fills of weight `w` put in. */
  function Times(n: nat, w: real): real {
    if n == 0 then 0.0 else Times(n - 1, w) + w
  }

  lemma {:induction false} TimesIsProduct(n: nat, w: real)
    ensures Times(n, w) == (n as real) * w
  {
    if n > 0 {
      TimesIsProduct(n - 1, w);
      assert (n as real) * w == ((n - 1) as real) * w + w;
    }
  }

  /** A bin's content after a run of 1-D fills: the old content plus `w`
    * for each value the lookup sent to that bin, whatever the order. */
  lemma {:induction false} FillValuesBin(h: Hist, vals: seq<real>, w: real, b: nat)
    requires WellFormed(h) && h.binning.dim == OneD && b < |h.contents|
    ensures FillValues(h, vals, w).contents[b] == h.contents[b] + Times(Hits(h.binning, vals, b), w)
    decreases |vals|
  {
    if vals != [] {
      var init := vals[..|vals| - 1];
      FillValuesBin(h, init, w, b);
      FillBin(FillValues(h, init, w), [vals[|vals| - 1]], w, b);
    }
  }

  /** A run of 1-D fills adds `w` per value to the integral. */
  lemma {:induction false} FillValuesSum(h: Hist, vals: seq<real>, w: real)
    requires WellFormed(h) && h.binning.dim == OneD
    ensures Sum(FillValues(h, vals, w).contents) == Sum(h.contents) + Times(|vals|, w)
    decreases |vals|
  {
    if vals != [] {
      var init := vals[..|vals| - 1];
      FillValuesSum(h, init, w);
      FillSum(FillValues(h, init, w), [vals[|vals| - 1]], w);
    }
  }

  /** Filling in two calls is filling once with the concatenated values. */
  lemma {:induction false} FillValuesAppend(h: Hist, xs: seq<real>, ys: seq<real>, w: real)
    requires WellFormed(h)
    ensures FillValues(h, xs + ys, w) == FillValues(FillValues(h, xs, w), ys, w)
    decreases |ys|
  {
    if ys == [] {
      assert xs + ys == xs;
    } else {
      var n := |ys| - 1;
      assert (xs + ys)[..|xs + ys| - 1] == xs + ys[..n];
      FillValuesAppend(h, xs, ys[..n], w);
    }
  }

  lemma {:induction false} HitsAppend(binning: Binning, xs: seq<real>, ys: seq<real>, b: nat)
    ensures Hits(binning, xs + ys, b) == Hits(binning, xs, b) + Hits(binning, ys, b)
    decreases |ys|
  {
    if ys == [] {
      assert xs + ys == xs;
    } else {
      var n := |ys| - 1;
      assert (xs + ys)[..|xs + ys| - 1] == xs + ys[..n];
      HitsAppend(binning, xs, ys[..n], b);
    }
  }

  lemma RemoveAt(ys: seq<real>, j: nat)
    requires j < |ys|
    ensures ys == ys[..j] + [ys[j]] + ys[j + 1..]
    ensures multiset(ys[..j] + ys[j + 1..]) == multiset(ys) - multiset{ys[j]}
  {
    assert ys == ys[..j] + [ys[j]] + ys[j + 1..];
  }

  /** The number of values sent to a bin does not depend on their order. */
  lemma {:induction false} HitsPermutation(binning: Binning, xs: seq<real>, ys: seq<real>, b: nat)
    requires multiset(xs) == multiset(ys)
    ensures Hits(binning, xs, b) == Hits(binning, ys, b)
    decreases |xs|
  {
    if xs == [] {
      assert |ys| == |multiset(ys)| == 0;
    } else {
      var n := |xs| - 1;
      var x := xs[n];
      assert xs == xs[..n] + [x];
      assert x in multiset(ys);
      var j :| 0 <= j < |ys| && ys[j] == x;
      var rest := ys[..j] + ys[j + 1..];
      RemoveAt(ys, j);
      assert multiset(xs) == multiset(xs[..n]) + multiset{x};
      HitsPermutation(binning, xs[..n], rest, b);
      HitsAppend(binning, ys[..j] + [x], ys[j + 1..], b);
      HitsAppend(binning, ys[..j], [x], b);
      HitsAppend(binning, ys[..j], ys[j + 1..], b);
      assert [x][..0] == [];
    }
  }

  /** Filling the same values in any order gives the same histogram. */
  lemma FillValuesReorder(h: Hist, xs: seq<real>, ys: seq<real>, w: real)
    requires WellFormed(h) && h.binning.dim == OneD
    requires multiset(xs) == multiset(ys)
    ensures FillValues(h, xs, w) == FillValues(h, ys, w)
  {
    var l := FillValues(h, xs, w);
    var r := FillValues(h, ys, w);
    forall b | 0 <= b < |h.contents| ensures l.contents[b] == r.contents[b] {
      FillValuesBin(h, xs, w, b);
      FillValuesBin(h, ys, w, b);
      HitsPermutation(h.binning, xs, ys, b);
    }
    assert l.contents == r.contents;
  }
}
