/** Spectral bookkeeping: the squared magnitude of each FFT bin, the two
    per-channel accumulators it feeds, the mapping from hertz to bins, the
    band averages written to the output files, and the conversion of the
    configured intervals into frame counts. */
module Spectrum {
  import opened Basics

  /** One bin of the transform's output: real and imaginary parts. */
  datatype Complex = Complex(re: real, im: real)

  /** Squared amplitude of a bin. */
  function Power(c: Complex): (p: real)
    ensures p >= 0.0
  {
    Square(c.re);
    Square(c.im);
    c.re * c.re + c.im * c.im
  }

  lemma Square(x: real)
    ensures x * x >= 0.0
  {
    if x < 0.0 {
      assert x * x > 0.0;
    }
  }

  /** An accumulator after one frame: every bin from 1 up gains the frame's
      power there; bin 0 (DC) is left as it was. */
  function AddPowers(acc: seq<real>, frame: seq<Complex>): (r: seq<real>)
    requires |acc| <= |frame|
    ensures |r| == |acc|
  {
    seq(|acc|, i requires 0 <= i < |acc| => if i == 0 then acc[0] else acc[i] + Power(frame[i]))
  }

  /** The output-record accumulator after one frame: as AddPowers, with the
      DC bin forced to zero. */
  function AddPowersNoDc(acc: seq<real>, frame: seq<Complex>): (r: seq<real>)
    requires 1 <= |acc| <= |frame|
    ensures |r| == |acc| && r[0] == 0.0
    ensures r[1..] == AddPowers(acc, frame)[1..]
  {
    AddPowers(acc, frame)[0 := 0.0]
  }

  predicate NonNegative(s: seq<real>) {
    forall i :: 0 <= i < |s| ==> s[i] >= 0.0
  }

  /** Accumulating never lowers a bin, so accumulators that start at zero
      stay non-negative. */
  lemma AddPowersGrows(acc: seq<real>, frame: seq<Complex>)
    requires |acc| <= |frame|
    ensures forall i :: 0 <= i < |acc| ==> AddPowers(acc, frame)[i] >= acc[i]
    ensures NonNegative(acc) ==> NonNegative(AddPowers(acc, frame))
  {
  }

  /** The order in which two frames are accumulated does not matter. */
  lemma AddPowersCommute(acc: seq<real>, a: seq<Complex>, b: seq<Complex>)
    requires |acc| <= |a| && |acc| <= |b|
    ensures AddPowers(AddPowers(acc, a), b) == AddPowers(AddPowers(acc, b), a)
  {
  }

  /** An accumulator after a sequence of frames, in order. */
  function AddAll(acc: seq<real>, frames: seq<seq<Complex>>): (r: seq<real>)
    requires forall k :: 0 <= k < |frames| ==> |acc| <= |frames[k]|
    ensures |r| == |acc|
    decreases |frames|
  {
    if frames == [] then acc else AddAll(AddPowers(acc, frames[0]), frames[1..])
  }

  /** Total power in bin i over a sequence of frames. */
  function TotalPower(frames: seq<seq<Complex>>, i: nat): (t: real)
    requires forall k :: 0 <= k < |frames| ==> i < |frames[k]|
    ensures t >= 0.0
    decreases |frames|
  {
    if frames == [] then 0.0 else Power(frames[0][i]) + TotalPower(frames[1..], i)
  }

  /** After any sequence of frames, every bin from 1 up holds its start
      value plus the total power of that bin over the frames, and bin 0 is
      untouched. */
  lemma {:induction false} AddAllIsTotal(acc: seq<real>, frames: seq<seq<Complex>>)
    requires forall k :: 0 <= k < |frames| ==> |acc| <= |frames[k]|
    ensures |acc| > 0 ==> AddAll(acc, frames)[0] == acc[0]
    ensures forall i :: 1 <= i < |acc| ==> AddAll(acc, frames)[i] == acc[i] + TotalPower(frames, i)
    decreases |frames|
  {
    if frames != [] {
      var next := AddPowers(acc, frames[0]);
      AddAllIsTotal(next, frames[1..]);
      forall i | 1 <= i < |acc|
        ensures AddAll(acc, frames)[i] == acc[i] + TotalPower(frames, i)
      {
        assert AddAll(acc, frames)[i] == next[i] + TotalPower(frames[1..], i);
      }
    }
  }

  // ---------------------------------------------------------------------
  // Bins and bands

  /** Division truncated toward zero, as C's conversion of a quotient to
      int truncates it. */
  function TruncDiv(a: int, b: int): int
    requires b > 0
  {
    if a >= 0 then a / b else -((-a) / b)
  }

  /** The bin holding frequency hz: hz / DF truncated toward zero, where
      DF = rate / fftwid, taken exactly as hz * fftwid / rate. */
  function BinOf(hz: int, rate: int, fftwid: int): (n: int)
    requires rate > 0 && fftwid > 0
    ensures hz >= 0 ==> n >= 0
    ensures hz <= 0 ==> n <= 0
  {
    TruncDiv(hz * fftwid, rate)
  }

  /** A non-negative frequency lies in the bin BinOf gives it: bin n spans
      [n * DF, (n + 1) * DF), that is [n * rate, (n + 1) * rate) once
      multiplied by fftwid. */
  lemma BinCoversFrequency(hz: int, rate: int, fftwid: int)
    requires rate > 0 && fftwid > 0 && hz >= 0
    ensures var n := BinOf(hz, rate, fftwid);
      n >= 0 && n * rate <= hz * fftwid < (n + 1) * rate
  {
    assert hz * fftwid >= 0 * fftwid;
    var h := hz * fftwid;
    assert h == h / rate * rate + h % rate;
  }

  lemma DivMono(x: int, y: int, r: int)
    requires 0 <= x <= y && r > 0
    ensures x / r <= y / r
  {
    var p, q := x / r, y / r;
    assert (p - q) * r == (x - x % r) - (y - y % r);
    MulSign(p - q, r);
  }

  lemma TruncDivMono(x: int, y: int, r: int)
    requires x <= y && r > 0
    ensures TruncDiv(x, r) <= TruncDiv(y, r)
  {
    if 0 <= x {
      DivMono(x, y, r);
      assert TruncDiv(x, r) == x / r && TruncDiv(y, r) == y / r;
    } else if y < 0 {
      DivMono(-y, -x, r);
      assert TruncDiv(x, r) == -((-x) / r) && TruncDiv(y, r) == -((-y) / r);
    } else {
      DivMono(0, -x, r);
      DivMono(0, y, r);
      assert TruncDiv(x, r) == -((-x) / r) && TruncDiv(y, r) == y / r;
    }
  }

  /** Higher frequencies never map to lower bins. */
  lemma BinOfMonotonic(a: int, b: int, rate: int, fftwid: int)
    requires rate > 0 && fftwid > 0 && a <= b
    ensures BinOf(a, rate, fftwid) <= BinOf(b, rate, fftwid)
  {
    MulMono(a, b, fftwid);
    TruncDivMono(a * fftwid, b * fftwid, rate);
  }

  /** Sum of a sequence, added from the front as the band loops add. */
  function Sum(s: seq<real>): real {
    if s == [] then 0.0 else Sum(s[..|s| - 1]) + s[|s| - 1]
  }

  lemma {:induction false} SumAppend(a: seq<real>, b: seq<real>)
    ensures Sum(a + b) == Sum(a) + Sum(b)
    decreases |b|
  {
    if b != [] {
      assert (a + b)[..|a + b| - 1] == a + b[..|b| - 1];
      SumAppend(a, b[..|b| - 1]);
    } else {
      assert a + b == a;
    }
  }

  /** A sum of non-negative values is non-negative. */
  lemma {:induction false} SumNonNegative(s: seq<real>)
    ensures NonNegative(s) ==> Sum(s) >= 0.0
    decreases |s|
  {
    if s != [] {
      SumNonNegative(s[..|s| - 1]);
    }
  }

  lemma {:induction false} SumBounds(s: seq<real>, lo: real, hi: real)
    requires forall i :: 0 <= i < |s| ==> lo <= s[i] <= hi
    ensures |s| as real * lo <= Sum(s) <= |s| as real * hi
    decreases |s|
  {
    if s != [] {
      SumBounds(s[..|s| - 1], lo, hi);
    }
  }

  lemma SumStep(s: seq<real>, a: int, b: int)
    requires 0 <= a <= b < |s|
    ensures Sum(s[a..b + 1]) == Sum(s[a..b]) + s[b]
  {
    assert s[a..b + 1][..b - a] == s[a..b];
  }

  /** The value written for a band: the mean per frame and per bin of the
      accumulated power over the bins n1..n2, both ends included. */
  function BandValue(powspec: seq<real>, n1: int, n2: int, outputInt: int): (v: real)
    requires 0 <= n1 <= n2 < |powspec| && outputInt != 0
    ensures outputInt > 0 && (forall j :: n1 <= j <= n2 ==> powspec[j] >= 0.0) ==> v >= 0.0
  {
    MulNonZero(outputInt, n2 - n1 + 1);
    SumNonNegative(powspec[n1..n2 + 1]);
    assert outputInt > 0 && (forall j :: n1 <= j <= n2 ==> powspec[j] >= 0.0) ==>
      NonNegative(powspec[n1..n2 + 1]) && outputInt * (n2 - n1 + 1) > 0;
    Sum(powspec[n1..n2 + 1]) / (outputInt * (n2 - n1 + 1)) as real
  }

  /** The band loop: add up bins n1..n2 of the accumulator, then divide by
      the frame count and the number of bins. */
  method BandPower(powspec: array<real>, n1: int, n2: int, outputInt: int) returns (e: real)
    requires 0 <= n1 <= n2 < powspec.Length && outputInt != 0
    ensures e == BandValue(powspec[..], n1, n2, outputInt)
  {
    ghost var p := powspec[..];
    e := 0.0;
    var j := n1;
    while j <= n2
      invariant n1 <= j <= n2 + 1
      invariant e == Sum(p[n1..j])
    {
      SumStep(p, n1, j);
      e := e + powspec[j];
      j := j + 1;
    }
    MulNonZero(outputInt, n2 - n1 + 1);
    e := e / (outputInt * (n2 - n1 + 1)) as real;
  }

  /** The band value is a mean: when every bin of the band lies in
      [lo, hi], the value times the frame count does too. */
  lemma BandValueIsMean(powspec: seq<real>, n1: int, n2: int, outputInt: int, lo: real, hi: real)
    requires 0 <= n1 <= n2 < |powspec| && outputInt >= 1
    requires forall j :: n1 <= j <= n2 ==> lo <= powspec[j] <= hi
    ensures lo <= BandValue(powspec, n1, n2, outputInt) * outputInt as real <= hi
  {
    var s := powspec[n1..n2 + 1];
    forall i | 0 <= i < |s|
      ensures lo <= s[i] <= hi
    {
      assert s[i] == powspec[n1 + i];
    }
    SumBounds(s, lo, hi);
    MeanBounds(Sum(s), outputInt, n2 - n1 + 1, lo, hi);
  }

  /** A total of w values in [lo, hi], divided by o * w, lies in [lo, hi]
      once multiplied by o. */
  lemma MeanBounds(total: real, o: int, w: int, lo: real, hi: real)
    requires o >= 1 && w >= 1 && w as real * lo <= total <= w as real * hi
    ensures lo <= total / (o * w) as real * o as real <= hi
  {
    var ow, wr := (o * w) as real, w as real;
    assert ow == o as real * wr;
    assert total / ow * o as real == total / wr;
  }

  /** A single-bin band reports that bin's power per frame. */
  lemma SingleBinBand(powspec: seq<real>, n: int, outputInt: int)
    requires 0 <= n < |powspec| && outputInt != 0
    ensures BandValue(powspec, n, n, outputInt) == powspec[n] / outputInt as real
  {
    SumStep(powspec, n, n);
    assert powspec[n..n] == [];
    assert (outputInt * (n - n + 1)) as real == outputInt as real;
  }

  /** Splitting a band into two adjacent bands splits its total power. */
  lemma BandSplits(powspec: seq<real>, n1: int, m: int, n2: int)
    requires 0 <= n1 <= m < n2 < |powspec|
    ensures Sum(powspec[n1..n2 + 1]) == Sum(powspec[n1..m + 1]) + Sum(powspec[m + 1..n2 + 1])
  {
    assert powspec[n1..n2 + 1] == powspec[n1..m + 1] + powspec[m + 1..n2 + 1];
    SumAppend(powspec[n1..m + 1], powspec[m + 1..n2 + 1]);
  }

  /** The fields of a SPECTRUM record: bins cuton up to but not including
      cutoff, each divided by the frame count. */
  function SpectrumRow(powspec: seq<real>, cuton: int, cutoff: int, outputInt: int): (row: seq<real>)
    requires cuton >= cutoff || (0 <= cuton && cutoff <= |powspec|)
    requires outputInt != 0
    ensures |row| == if cuton < cutoff then cutoff - cuton else 0
    ensures forall k :: 0 <= k < |row| ==> row[k] * outputInt as real == powspec[cuton + k]
  {
    if cuton >= cutoff then []
    else seq(cutoff - cuton, k requires 0 <= k < cutoff - cuton => powspec[cuton + k] / outputInt as real)
  }

  /** Centre frequency of bin i, (i + 0.5) * DF, as the utility spectrum and
      the SPECTRUM header give it. */
  function BinCentre(i: int, rate: int, fftwid: int): (hz: real)
    requires rate > 0 && fftwid > 0
    ensures i >= 0 ==> hz > 0.0
  {
    (i as real + 0.5) * (rate as real / fftwid as real)
  }

  /** Every bin's centre lies strictly inside the bin's frequency interval,
      from i * DF to (i + 1) * DF. */
  lemma BinCentreInBin(i: nat, rate: int, fftwid: int)
    requires rate > 0 && fftwid > 0
    ensures var c := BinCentre(i, rate, fftwid);
      i as real * (rate as real / fftwid as real) < c < (i + 1) as real * (rate as real / fftwid as real)
  {
  }

  // ---------------------------------------------------------------------
  // Intervals

  /** Frames per output record: the rounded interval, with 0 taken as 1. */
  function OutputInterval(rounded: int): (n: int)
    ensures n != 0
    ensures rounded != 0 ==> n == rounded
  {
    if rounded == 0 then 1 else rounded
  }

  /** A non-negative rounded interval always gives at least one frame per
      record. */
  lemma OutputIntervalAtLeastOne(rounded: int)
    requires rounded >= 0
    ensures OutputInterval(rounded) >= 1
  {
  }
}
