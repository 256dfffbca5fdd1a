/** The sample pipeline: raw buffers from the sound card are unpacked into
    the two channels, a shared cursor fills each channel's FFT input and
    wraps every FFTWID samples, each wrap transforms the frame and adds its
    power into the two accumulators, and two frame counters decide when an
    output record and a utility spectrum are due, each zeroing its own
    accumulators afterwards. */
module Monitor {
  import opened Basics
  import opened Samples
  import opened Spectrum
  import opened Los
  import opened Config
  import opened Template
  import opened Output

  function NoSignal(x: seq<real>): seq<Complex> {
    seq(|x| / 2 + 1, _ => Complex(0.0, 0.0))
  }

  /** The real-to-complex FFT: n samples give n/2 + 1 bins. */
  type Transform = f: seq<real> -> seq<Complex> | forall x {:trigger f(x)} :: |f(x)| == |x| / 2 + 1
    witness NoSignal

  /** The clock as read for one buffer: gettimeofday for the records and the
      seconds that check_los compares against. */
  datatype Clock = Clock(tv: Timeval, frac: Fractions)

  /** The monitor's state that a frame can change, as values: the output
      files, the two frame counters and what they have fired, the utility
      spectrum file, the alerts, and per channel the two accumulators, the
      loss-of-signal state, the peak and the sum of squares. */
  datatype Snap = Snap(st: Store, frameCnt: int, uspecCnt: int, records: nat, spectra: nat,
                       utility: Option<seq<seq<real>>>, alerts: seq<string>,
                       lp: seq<real>, rp: seq<real>, ls: seq<real>, rs: seq<real>,
                       llos: LosState, rlos: LosState, lpeak: real, rpeak: real, lsum: real, rsum: real)
  {
    /** The part of the state a client of the daemon sees. */
    function Outside(): Seen {
      Seen(st, records, spectra, utility, alerts)
    }
  }

  /** What a client of the daemon sees: the files, the records and utility
      spectra written, the utility spectrum file and the alerts raised. */
  datatype Seen = Seen(st: Store, records: nat, spectra: nat, utility: Option<seq<seq<real>>>,
                       alerts: seq<string>)

  /** How the state a client sees can move over any number of sample
      periods: alerts are only appended; the files change only with a
      record and the utility spectrum only with a spectrum. */
  ghost predicate Progress(b: Seen, a: Seen) {
    && b.alerts <= a.alerts
    && b.records <= a.records && (a.records == b.records ==> a.st == b.st)
    && b.spectra <= a.spectra && (a.spectra == b.spectra ==> a.utility == b.utility)
  }

  /** Progress over two stretches is progress over both. */
  lemma ProgressTrans(x: Seen, y: Seen, z: Seen)
    requires Progress(x, y) && Progress(y, z)
    ensures Progress(x, z)
  {
    assert x.alerts <= z.alerts by {
      assert z.alerts[..|x.alerts|] == y.alerts[..|y.alerts|][..|x.alerts|];
    }
  }

  /** A counter as maybe_do_fft steps it, after `n` counts: incremented on
      each count, and back to zero with one more round fired when it reaches
      `limit`.  Gives the counter and the rounds fired. */
  function CounterAfter(n: nat, limit: int): (r: (int, nat))
    ensures r.0 >= 0
  {
    if n == 0 then (0, 0)
    else
      var prev := CounterAfter(n - 1, limit);
      if prev.0 + 1 == limit then (0, prev.1 + 1) else (prev.0 + 1, prev.1)
  }

  /** `cnt` and `fired` are what the counter shows after `n` counts. */
  predicate Cycle(cnt: int, fired: nat, n: nat, limit: int) {
    CounterAfter(n, limit).0 == cnt && CounterAfter(n, limit).1 == fired
  }

  /** The counter never exceeds the counts. */
  lemma {:induction false} CounterAtMost(n: nat, limit: int)
    ensures CounterAfter(n, limit).0 <= n
  {
    if n > 0 {
      CounterAtMost(n - 1, limit);
    }
  }

  /** With a limit of at least 1 the counter is the remainder of the counts
      by the limit and the rounds fired are the quotient. */
  lemma {:induction false} CounterDivMod(n: nat, limit: int)
    requires limit >= 1
    ensures CounterAfter(n, limit).0 == n % limit && CounterAfter(n, limit).1 == n / limit
  {
    if n == 0 {
      DivModUnique(0, limit, 0, 0);
    } else {
      CounterDivMod(n - 1, limit);
      DivModNext(n - 1, limit);
    }
  }

  /** A limit below 1 is never reached: the counter counts every count and
      never fires. */
  lemma {:induction false} CounterNeverFires(n: nat, limit: int)
    requires limit < 1
    ensures CounterAfter(n, limit).0 == n && CounterAfter(n, limit).1 == 0
  {
    if n > 0 {
      CounterNeverFires(n - 1, limit);
    }
  }

  /** The counter fires on count n + 1 exactly when the limit is at least 1
      and divides n + 1. */
  lemma FiresOnMultiples(n: nat, limit: int)
    ensures CounterAfter(n + 1, limit).1 == CounterAfter(n, limit).1 + 1
      <==> limit >= 1 && (n + 1) % limit == 0
    ensures CounterAfter(n + 1, limit).1 != CounterAfter(n, limit).1 ==> CounterAfter(n + 1, limit).0 == 0
  {
    if limit >= 1 {
      CounterDivMod(n, limit);
      CounterDivMod(n + 1, limit);
    } else {
      CounterNeverFires(n + 1, limit);
      CounterNeverFires(n, limit);
    }
  }

  /** One more count: the counter fires exactly when it reaches its limit,
      and then starts again from zero. */
  lemma CycleStep(cnt: int, fired: nat, n: nat, limit: int)
    requires Cycle(cnt, fired, n, limit)
    ensures var fire := cnt + 1 == limit;
      Cycle(if fire then 0 else cnt + 1, fired + (if fire then 1 else 0), n + 1, limit)
  {
  }

  /** The bins of a band on a given side fit the accumulators. */
  predicate BandFits(b: Band, rate: int, fftwid: int, bins: int)
    requires rate > 0 && fftwid > 0
  {
    0 <= BinOf(b.start, rate, fftwid) <= BinOf(b.end, rate, fftwid) < bins
  }

  predicate BandsFit(bands: seq<Band>, rate: int, fftwid: int, bins: int)
    requires rate > 0 && fftwid > 0
  {
    forall k :: 0 <= k < |bands| ==> BandFits(bands[k], rate, fftwid, bins)
  }

  /** The values of the bands, each from the accumulator of its side. */
  function BandValues(bands: seq<Band>, lp: seq<real>, rp: seq<real>, rate: int, fftwid: int,
                      outputInt: int): (vs: seq<real>)
    requires rate > 0 && fftwid > 0 && outputInt != 0 && |lp| == |rp|
    requires BandsFit(bands, rate, fftwid, |lp|)
    ensures |vs| == |bands|
  {
    seq(|bands|, k requires 0 <= k < |bands| =>
      BandValue(if bands[k].side == Left then lp else rp,
                BinOf(bands[k].start, rate, fftwid), BinOf(bands[k].end, rate, fftwid), outputInt))
  }

  /** The numbers of a BANDS_MULTI record: both peaks, both mean squares
      over one frame, then the bands. */
  function MultiFields(lpeak: real, rpeak: real, lsum: real, rsum: real, fftwid: int,
                       values: seq<real>): (fs: seq<real>)
    requires fftwid > 0
    ensures |fs| == 4 + |values| && fs[4..] == values
    ensures fs[0] == lpeak && fs[1] == rpeak
    ensures fs[2] * fftwid as real == lsum && fs[3] * fftwid as real == rsum
  {
    [lpeak, rpeak, lsum / fftwid as real, rsum / fftwid as real] + values
  }

  /** The centre frequencies of the SPECTRUM header. */
  function Freqs(cuton: int, cutoff: int, rate: int, fftwid: int): (fs: seq<real>)
    requires rate > 0 && fftwid > 0
    ensures |fs| == if cuton < cutoff then cutoff - cuton else 0
  {
    if cuton >= cutoff then []
    else seq(cutoff - cuton, k requires 0 <= k < cutoff - cuton => BinCentre(cuton + k, rate, fftwid))
  }

  /** One line of the utility spectrum: the bin centre, then the left and,
      in stereo, the right average. */
  function UtilityRow(i: int, l: real, r: real, chans: int, rate: int, fftwid: int, uspecMax: int): (row: seq<real>)
    requires rate > 0 && fftwid > 0 && uspecMax >= 1
    ensures |row| == if chans == 1 then 2 else 3
    ensures row[0] == BinCentre(i, rate, fftwid) && row[1] * uspecMax as real == l
    ensures chans != 1 ==> row[2] * uspecMax as real == r
  {
    [BinCentre(i, rate, fftwid), l / uspecMax as real] + (if chans == 1 then [] else [r / uspecMax as real])
  }

  function UtilityRows(ls: seq<real>, rs: seq<real>, chans: int, rate: int, fftwid: int, uspecMax: int): (rows: seq<seq<real>>)
    requires rate > 0 && fftwid > 0 && uspecMax >= 1 && |ls| == |rs|
    ensures |rows| == |ls|
  {
    seq(|ls|, i requires 0 <= i < |ls| => UtilityRow(i, ls[i], rs[i], chans, rate, fftwid, uspecMax))
  }

  /** A sample multiplied by its window coefficient, as insert_sample stores
      it in the frame. */
  function Weigh(x: real, w: real): real {
    x * w
  }

  /** A run of samples multiplied, position by position, by the window
      coefficients from the start of the frame. */
  function Windowed(xs: seq<real>, w: seq<real>): (ys: seq<real>)
    requires |xs| <= |w|
    ensures |ys| == |xs|
    ensures forall k {:trigger ys[k]} :: 0 <= k < |xs| ==> ys[k] == Weigh(xs[k], w[k])
  {
    seq(|xs|, k requires 0 <= k < |xs| => Weigh(xs[k], w[k]))
  }

  /** The first n positions of a frame buffer hold the last n samples of a
      history, each multiplied by its position's window coefficient. */
  predicate Tail(buf: seq<real>, hist: seq<real>, w: seq<real>, n: nat) {
    && n <= |hist| && n <= |w| && n <= |buf|
    && forall k {:trigger buf[k]} :: 0 <= k < n ==> buf[k] == Weigh(hist[|hist| - n + k], w[k])
  }

  /** A full buffer holding the windowed tail of a history is that tail, windowed. */
  lemma TailFull(buf: seq<real>, hist: seq<real>, w: seq<real>, n: nat)
    requires n == |buf| && Tail(buf, hist, w, n)
    ensures n <= |hist| && buf == Windowed(hist[|hist| - n..], w)
  {
    var run := hist[|hist| - n..];
    assert forall k :: 0 <= k < n ==> run[k] == hist[|hist| - n + k];
  }

  /** Inserting sample f at the cursor g of a frame buffer holding the
      windowed tail of g samples leaves it holding the windowed tail of g + 1
      samples once f is taken in. */
  lemma WindowedStep(buf: seq<real>, hist: seq<real>, w: seq<real>, g: nat, f: real)
    requires g < |buf| && g < |w| && Tail(buf, hist, w, g)
    ensures Tail(buf[g := Weigh(f, w[g])], hist + [f], w, g + 1)
  {
  }

  /** One input channel (struct CHAN). */
  class Channel {
    const name: string
    const inbuf: array<real>    // fft_inbuf: the windowed frame
    const powspec: array<real>  // power accumulator for output records
    const sigavg: array<real>   // power accumulator for the utility spectrum
    var peak: real
    var sumSq: real
    var los: LosState

    ghost predicate Valid(bins: nat) {
      inbuf.Length == 2 * bins && powspec.Length == bins && sigavg.Length == bins
      && inbuf != powspec && inbuf != sigavg && powspec != sigavg
    }

    /** What a channel keeps between frames: the DC bin of both
        accumulators at zero and nothing negative. */
    ghost predicate Sane()
      reads this`peak, this`sumSq, powspec, sigavg
    {
      peak >= 0.0 && sumSq >= 0.0
      && powspec.Length >= 1 && sigavg.Length >= 1
      && powspec[0] == 0.0 && sigavg[0] == 0.0
      && NonNegative(powspec[..]) && NonNegative(sigavg[..])
    }

    /** initialise_channel: both accumulators zeroed; no peak, no signal
        loss and no timer, as the channel's static initialisation leaves
        them. */
    constructor (name: string, bins: nat)
      ensures this.name == name && Valid(bins)
      ensures fresh(inbuf) && fresh(powspec) && fresh(sigavg)
      ensures powspec[..] == Zeros(bins) && sigavg[..] == Zeros(bins)
      ensures peak == 0.0 && sumSq == 0.0 && los == LosState(false, 0)
    {
      this.name := name;
      inbuf := new real[2 * bins](_ => 0.0);
      powspec := new real[bins](_ => 0.0);
      sigavg := new real[bins](_ => 0.0);
      peak := 0.0;
      sumSq := 0.0;
      los := LosState(false, 0);
    }

    /** insert_sample: the square is added to the running sum, the peak
        becomes the largest magnitude seen, and the windowed sample goes into
        the frame at the cursor. */
    method InsertSample(f: real, w: real, pos: nat)
      requires pos < inbuf.Length
      modifies this, inbuf
      ensures sumSq == old(sumSq) + f * f && sumSq >= old(sumSq)
      ensures old(peak) >= 0.0 ==> peak == Max(old(peak), Abs(f))
      ensures inbuf[..] == old(inbuf[..])[pos := Weigh(f, w)]
      ensures los == old(los)
    {
      Square(f);
      sumSq := sumSq + f * f;
      if f > peak {
        peak := f;
      }
      if f < -peak {
        peak := -f;
      }
      inbuf[pos] := Weigh(f, w);
    }

    /** process_fft after the transform: the DC bin of the record
        accumulator is zeroed, every other bin of both accumulators gains
        the frame's power, and the signal-loss state takes one step. */
    method ProcessFft(data: seq<Complex>, thresh: real, timeout: int, now: int, chans: int)
      returns (alert: Option<string>)
      requires 1 <= powspec.Length == sigavg.Length <= |data| && powspec != sigavg
      modifies this, powspec, sigavg
      ensures powspec[..] == AddPowersNoDc(old(powspec[..]), data)
      ensures sigavg[..] == AddPowers(old(sigavg[..]), data)
      ensures LosStep(los, alert) == CheckLos(old(los), peak, thresh, timeout, now, now, chans, name)
      ensures peak == old(peak) && sumSq == old(sumSq)
      ensures old(Sane()) ==> Sane()
    {
      ghost var p0 := powspec[..];
      ghost var s0 := sigavg[..];
      ghost var p1 := AddPowersNoDc(p0, data);
      ghost var s1 := AddPowers(s0, data);
      powspec[0] := 0.0;
      var i := 1;
      while i < powspec.Length
        invariant 1 <= i <= powspec.Length
        invariant forall k :: 0 <= k < i ==> powspec[k] == p1[k]
        invariant forall k :: i <= k < powspec.Length ==> powspec[k] == p0[k]
        invariant forall k :: 0 <= k < i ==> sigavg[k] == s1[k]
        invariant forall k :: i <= k < sigavg.Length ==> sigavg[k] == s0[k]
        invariant peak == old(peak) && sumSq == old(sumSq) && los == old(los)
      {
        var f := Power(data[i]);
        powspec[i] := powspec[i] + f;
        sigavg[i] := sigavg[i] + f;
        i := i + 1;
      }
      assert powspec[..] == p1 && sigavg[..] == s1;
      AddPowersGrows(p0, data);
      AddPowersGrows(s0, data);
      var step := CheckLos(los, peak, thresh, timeout, now, now, chans, name);
      los := step.state;
      alert := step.alert;
    }
  }

  function Max(a: real, b: real): real {
    if a >= b then a else b
  }

  /** The magnitude of a sample, as fabs gives it. */
  function Abs(x: real): real {
    if x >= 0.0 then x else -x
  }

  /** The largest magnitude among the samples of hist from index `from` on,
      0 for none. */
  function PeakFrom(hist: seq<real>, from: nat): (p: real)
    decreases |hist|
    ensures p >= 0.0
    ensures forall k :: from <= k < |hist| ==> Abs(hist[k]) <= p
    ensures from < |hist| ==> exists k :: from <= k < |hist| && p == Abs(hist[k])
  {
    if |hist| <= from then 0.0
    else
      var init := hist[..|hist| - 1];
      var p := PeakFrom(init, from);
      assert forall k :: 0 <= k < |init| ==> init[k] == hist[k];
      assert from < |init| ==> exists k :: from <= k < |init| && p == Abs(hist[k]);
      Max(p, Abs(hist[|hist| - 1]))
  }

  /** The sum of the squares of the samples of hist from index `from` on. */
  function SumFrom(hist: seq<real>, from: nat): (s: real)
    decreases |hist|
    ensures s >= 0.0
  {
    if |hist| <= from then 0.0
    else
      Square(hist[|hist| - 1]);
      SumFrom(hist[..|hist| - 1], from) + hist[|hist| - 1] * hist[|hist| - 1]
  }

  /** A channel's peak and sum of squares are those of the samples of hist
      from index `from` on. */
  predicate Accumulated(peak: real, sumSq: real, hist: seq<real>, from: nat) {
    from <= |hist| && peak == PeakFrom(hist, from) && sumSq == SumFrom(hist, from)
  }

  /** insert_sample's update of peak and sum keeps them those of the samples
      taken in, now including the new one. */
  lemma AccumulatedStep(peak: real, sumSq: real, hist: seq<real>, from: nat, f: real)
    requires Accumulated(peak, sumSq, hist, from)
    ensures Accumulated(Max(peak, Abs(f)), sumSq + f * f, hist + [f], from)
  {
    PeakFromStep(hist, from, f);
    SumFromStep(hist, from, f);
  }

  /** One more sample: the peak is the larger of the old peak and the new
      magnitude. */
  lemma PeakFromStep(hist: seq<real>, from: nat, f: real)
    requires from <= |hist|
    ensures PeakFrom(hist + [f], from) == Max(PeakFrom(hist, from), Abs(f))
  {
    var run := hist + [f];
    assert run[..|run| - 1] == hist && run[|run| - 1] == f;
  }

  /** One more sample: the sum gains its square. */
  lemma SumFromStep(hist: seq<real>, from: nat, f: real)
    requires from <= |hist|
    ensures SumFrom(hist + [f], from) == SumFrom(hist, from) + f * f
  {
    var run := hist + [f];
    assert run[..|run| - 1] == hist && run[|run| - 1] == f;
  }

  /** Nothing taken in since a clear-down: zero peak, zero sum. */
  lemma AccumulatedCleared(hist: seq<real>)
    ensures Accumulated(0.0, 0.0, hist, |hist|)
  {
  }

  function Zeros(n: nat): (z: seq<real>)
    ensures |z| == n && NonNegative(z)
  {
    seq(n, _ => 0.0)
  }

  function Idents(bands: seq<Band>): (ids: seq<string>)
    ensures |ids| == |bands|
  {
    seq(|bands|, k requires 0 <= k < |bands| => bands[k].ident)
  }

  /** The alerts of one step, as a list. */
  function Alerts(a: Option<string>): seq<string> {
    if a.Some? then [a.value] else []
  }

  /** The alerts of one frame: the left channel's, then in stereo the right one's. */
  function FrameAlerts(l: Option<string>, r: Option<string>, chans: int): seq<string> {
    Alerts(l) + (if chans == 2 then Alerts(r) else [])
  }

  /** The daemon's processing state: its configuration, the two channels,
      the output files and the three counters of the pipeline. */
  class Monitor {
    const settings: Settings
    const bands: seq<Band>
    const bins: nat
    const fftwid: nat           // FFTWID, two samples per bin
    const window: seq<real>     // hamwin, one coefficient per frame position
    const fft: Transform
    const outputInt: int        // frames per output record
    const uspecMax: int         // frames per utility spectrum
    const losThresh: real
    const cuton: int
    const cutoff: int
    const left: Channel
    const right: Channel
    const store: OutputFiles

    var grabCnt: nat
    var frameCnt: int
    var uspecCnt: int
    var alerts: seq<string>                // alert messages raised, in order
    var utility: Option<seq<seq<real>>>    // the utility spectrum file, once written

    ghost var samples: nat                 // sample periods taken in
    ghost var frames: nat                  // full frames transformed
    ghost var records: nat                 // output records issued
    ghost var spectra: nat                 // utility spectra issued
    ghost var leftIn: seq<real>            // samples fed to the left channel
    ghost var rightIn: seq<real>           // samples fed to the right channel
    ghost var cleared: nat                 // samples per channel taken in before the last clear-down

    /** The settings the pipeline relies on. */
    ghost predicate Consts() {
      && bins >= 1 && fftwid == 2 * bins && |window| == fftwid
      && ValidWidth(settings.bytes) && (settings.chans == 1 || settings.chans == 2)
      && settings.sampleRate > 0 && outputInt != 0
      && BandsFit(bands, settings.sampleRate, fftwid, bins)
      && (cuton >= cutoff || (0 <= cuton && cutoff <= bins))
    }

    ghost predicate Shape() {
      && Consts()
      && left != right && left.Valid(bins) && right.Valid(bins)
      && left.inbuf != right.inbuf && left.inbuf != right.powspec && left.inbuf != right.sigavg
      && left.powspec != right.inbuf && left.powspec != right.powspec && left.powspec != right.sigavg
      && left.sigavg != right.inbuf && left.sigavg != right.powspec && left.sigavg != right.sigavg
    }

    /** One output handle slot per band. */
    ghost predicate Files()
      reads store`perBand
    {
      |store.perBand| == |bands|
    }

    /** The cursor and the two frame counters against the number of
        samples taken in. */
    ghost predicate Counters()
      reads this`samples, this`frames, this`grabCnt, this`frameCnt, this`records, this`uspecCnt, this`spectra
    {
      && fftwid > 0 && grabCnt < fftwid && Cycle(grabCnt, frames, samples, fftwid)
      && Cycle(frameCnt, records, frames, outputInt)
      && Cycle(uspecCnt, spectra, frames, uspecMax)
    }

    /** One sample per sample period for the left channel, and for the
        right one in stereo. */
    ghost predicate History()
      reads this`samples, this`leftIn, this`rightIn
    {
      |leftIn| == samples && |rightIn| == (if settings.chans == 2 then samples else 0)
    }

    /** The first n positions of the frame buffers hold the last n samples
        taken in, each multiplied by its position's window coefficient. */
    ghost predicate Holds(n: nat)
      reads this`leftIn, this`rightIn, left.inbuf, right.inbuf
    {
      && Tail(left.inbuf[..], leftIn, window, n)
      && (settings.chans == 2 ==> Tail(right.inbuf[..], rightIn, window, n))
    }

    /** Frame alignment: the part of the frame assembled so far is the tail
        of the samples taken in since the last full frame. */
    ghost predicate Filled()
      reads this`grabCnt, this`leftIn, this`rightIn, left.inbuf, right.inbuf
    {
      Holds(grabCnt)
    }

    /** Each channel's peak and sum of squares are those of the samples it
        has taken in since the last clear-down; in mono the right channel's
        stay at zero. */
    ghost predicate Energy()
      reads this`cleared, this`leftIn, this`rightIn, left`peak, left`sumSq, right`peak, right`sumSq
    {
      && Accumulated(left.peak, left.sumSq, leftIn, cleared)
      && if settings.chans == 2 then Accumulated(right.peak, right.sumSq, rightIn, cleared)
         else right.peak == 0.0 && right.sumSq == 0.0
    }

    /** In stereo both channels have taken in the same number of samples. */
    ghost predicate Paired()
      reads this`leftIn, this`rightIn
    {
      settings.chans == 2 ==> |rightIn| == |leftIn|
    }

    /** What the daemon keeps true between sample periods, apart from Shape,
        which reads no state and so holds for good once it holds. */
    ghost predicate Running()
      reads this`samples, this`frames, this`grabCnt, this`frameCnt, this`records, this`uspecCnt, this`spectra
      reads this`leftIn, this`rightIn, this`cleared, store`perBand
      reads left`peak, left`sumSq, right`peak, right`sumSq, left.powspec, left.sigavg, right.powspec, right.sigavg
    {
      Files() && Counters() && History() && Energy() && left.Sane() && right.Sane()
    }

    ghost predicate Valid()
      reads this`samples, this`frames, this`grabCnt, this`frameCnt, this`records, this`uspecCnt, this`spectra
      reads this`leftIn, this`rightIn, this`cleared, store`perBand
      reads left`peak, left`sumSq, right`peak, right`sumSq, left.powspec, left.sigavg, right.powspec, right.sigavg
    {
      Shape() && Running()
    }

    /** The record an output_record call writes, by output policy. */
    function RecordStep(st: Store, lp: seq<real>, rp: seq<real>, lpeak: real, rpeak: real,
                        lsum: real, rsum: real, clock: Clock): (r: Outcome<Store>)
      requires Consts() && |lp| == bins && |rp| == bins && |st.perBand| == |bands|
      ensures r.Ok? ==> |r.value.perBand| == |bands|
      ensures r.Ok? && settings.policy != BandsEach ==> r.value.perBand == st.perBand
      ensures r.Ok? && settings.policy == BandsEach ==> r.value.shared == st.shared
    {
      var rate := settings.sampleRate;
      var values := BandValues(bands, lp, rp, rate, fftwid, outputInt);
      match settings.policy
      case Spectrum =>
        SharedStep(st, settings, FreqHeader(Freqs(cuton, cutoff, rate, fftwid)), clock.tv, clock.frac,
                   SpectrumRow(lp, cuton, cutoff, outputInt))
      case BandsMulti =>
        SharedStep(st, settings, MultiHeader(Idents(bands)), clock.tv, clock.frac,
                   MultiFields(lpeak, rpeak, lsum, rsum, fftwid, values))
      case BandsEach =>
        EachStep(st, settings, Idents(bands), clock.tv, clock.frac, values)
    }

    /** Start-up: the frame counts come from the rounded intervals (an
        output interval of 0 frames counts as 1, and without a utility
        spectrum file its interval is 0), the spectrum range is converted to
        bins only under the SPECTRUM policy, and both channels are
        initialised even in mono. */
    constructor (settings: Settings, bands: seq<Band>, window: seq<real>, fft: Transform,
                 roundedOutput: int, roundedUspec: int, losThresh: real, disk: map<string, seq<Line>>)
      requires settings.bins >= 1 && |window| == 2 * settings.bins
      requires ValidWidth(settings.bytes) && (settings.chans == 1 || settings.chans == 2)
      requires settings.sampleRate > 0
      requires BandsFit(bands, settings.sampleRate, 2 * settings.bins, settings.bins)
      requires settings.policy == Spectrum ==>
        var a := BinOf(settings.range1, settings.sampleRate, 2 * settings.bins);
        var b := BinOf(settings.range2, settings.sampleRate, 2 * settings.bins);
        a >= b || (0 <= a && b <= settings.bins)
      ensures Valid()
      ensures this.settings == settings && this.bands == bands && this.window == window && this.fft == fft
      ensures bins == settings.bins && fftwid == 2 * settings.bins && this.losThresh == losThresh
      ensures cuton == (if settings.policy == Spectrum then BinOf(settings.range1, settings.sampleRate, fftwid) else 0)
      ensures cutoff == (if settings.policy == Spectrum then BinOf(settings.range2, settings.sampleRate, fftwid) else 0)
      ensures outputInt == OutputInterval(roundedOutput)
      ensures uspecMax == (if settings.uspecFile.Some? then roundedUspec else 0)
      ensures grabCnt == 0 && frameCnt == 0 && uspecCnt == 0 && alerts == [] && utility.None?
      ensures samples == 0 && frames == 0 && records == 0 && spectra == 0 && cleared == 0
      ensures store.State() == Store(disk, [], None, NoHandles(|bands|))
      ensures left.powspec[..] == Zeros(bins) && right.powspec[..] == Zeros(bins)
      ensures left.sigavg[..] == Zeros(bins) && right.sigavg[..] == Zeros(bins)
      ensures left.peak == 0.0 && right.peak == 0.0 && left.sumSq == 0.0 && right.sumSq == 0.0
      ensures left.name == "left" && right.name == "right"
      ensures left.los == LosState(false, 0) && right.los == LosState(false, 0)
      ensures leftIn == [] && rightIn == []
      ensures fresh(left) && fresh(right) && fresh(store)
      ensures fresh(left.inbuf) && fresh(left.powspec) && fresh(left.sigavg)
      ensures fresh(right.inbuf) && fresh(right.powspec) && fresh(right.sigavg)
    {
      this.settings := settings;
      this.bands := bands;
      bins := settings.bins;
      fftwid := 2 * settings.bins;
      this.window := window;
      this.fft := fft;
      outputInt := OutputInterval(roundedOutput);
      uspecMax := if settings.uspecFile.Some? then roundedUspec else 0;
      this.losThresh := losThresh;
      cuton := if settings.policy == Spectrum then BinOf(settings.range1, settings.sampleRate, 2 * settings.bins) else 0;
      cutoff := if settings.policy == Spectrum then BinOf(settings.range2, settings.sampleRate, 2 * settings.bins) else 0;
      left := new Channel("left", settings.bins);
      right := new Channel("right", settings.bins);
      store := new OutputFiles(disk, |bands|);
      grabCnt := 0;
      frameCnt := 0;
      uspecCnt := 0;
      alerts := [];
      utility := None;
      samples := 0;
      frames := 0;
      records := 0;
      spectra := 0;
      leftIn := [];
      rightIn := [];
      cleared := 0;
      new;
      assert Shape();
      assert Files();
      assert Counters();
    }

    /** process_fft on the left channel and, in stereo, on the right: the
        frames are transformed, their power accumulated and each channel's
        signal-loss state stepped, with the alerts raised in that order. */
    method ProcessFrame(clock: Clock)
      requires Shape() && left.Sane() && right.Sane()
      modifies left, right, left.powspec, left.sigavg, right.powspec, right.sigavg, this`alerts
      ensures left.powspec[..] == AddPowersNoDc(old(left.powspec[..]), fft(old(left.inbuf[..])))
      ensures left.sigavg[..] == AddPowers(old(left.sigavg[..]), fft(old(left.inbuf[..])))
      ensures settings.chans == 2 ==>
        right.powspec[..] == AddPowersNoDc(old(right.powspec[..]), fft(old(right.inbuf[..])))
        && right.sigavg[..] == AddPowers(old(right.sigavg[..]), fft(old(right.inbuf[..])))
      ensures settings.chans == 1 ==>
        right.powspec[..] == old(right.powspec[..]) && right.sigavg[..] == old(right.sigavg[..])
        && right.los == old(right.los)
      ensures var l := CheckLos(old(left.los), left.peak, losThresh, settings.losTimeout, clock.tv.sec,
                                clock.tv.sec, settings.chans, left.name);
        var r := CheckLos(old(right.los), right.peak, losThresh, settings.losTimeout, clock.tv.sec,
                          clock.tv.sec, settings.chans, right.name);
        left.los == l.state
        && (settings.chans == 2 ==> right.los == r.state)
        && alerts == old(alerts) + FrameAlerts(l.alert, r.alert, settings.chans)
      ensures left.peak == old(left.peak) && left.sumSq == old(left.sumSq)
      ensures right.peak == old(right.peak) && right.sumSq == old(right.sumSq)
      ensures left.Sane() && right.Sane()
    {
      var ldata := fft(left.inbuf[..]);
      var rdata := fft(right.inbuf[..]);
      var a := left.ProcessFft(ldata, losThresh, settings.losTimeout, clock.tv.sec, settings.chans);
      var b := None;
      if settings.chans == 2 {
        b := right.ProcessFft(rdata, losThresh, settings.losTimeout, clock.tv.sec, settings.chans);
      }
      alerts := alerts + FrameAlerts(a, b, settings.chans);
    }

    /** The band loop of the two band policies: each band's value from the
        accumulator of its side. */
    method ComputeBandValues() returns (values: seq<real>)
      requires Shape()
      ensures values == BandValues(bands, left.powspec[..], right.powspec[..], settings.sampleRate, fftwid, outputInt)
    {
      var rate := settings.sampleRate;
      values := [];
      var k := 0;
      while k < |bands|
        invariant 0 <= k <= |bands|
        invariant values == BandValues(bands, left.powspec[..], right.powspec[..], rate, fftwid, outputInt)[..k]
      {
        var b := bands[k];
        assert BandFits(b, rate, fftwid, bins);
        var n1 := BinOf(b.start, rate, fftwid);
        var n2 := BinOf(b.end, rate, fftwid);
        var e: real;
        if b.side == Left {
          e := BandPower(left.powspec, n1, n2, outputInt);
        } else {
          e := BandPower(right.powspec, n1, n2, outputInt);
        }
        values := values + [e];
        k := k + 1;
      }
    }

    /** The field loop of output_spectrum_record: bins cuton up to cutoff of
        the left accumulator, per frame. */
    method SpectrumFields() returns (row: seq<real>)
      requires Shape()
      ensures row == SpectrumRow(left.powspec[..], cuton, cutoff, outputInt)
    {
      row := [];
      var i := cuton;
      while i < cutoff
        invariant cuton <= cutoff ==> cuton <= i <= cutoff
        invariant cuton < cutoff ==> row == SpectrumRow(left.powspec[..], cuton, cutoff, outputInt)[..i - cuton]
        invariant cuton >= cutoff ==> row == []
      {
        row := row + [left.powspec[i] / outputInt as real];
        i := i + 1;
      }
    }

    /** The clear-down at the end of output_record: the record accumulators,
        peaks and power sums of both channels, even in mono. */
    method ClearRecord()
      requires Shape() && Paired() && left.Sane() && right.Sane()
      modifies this`cleared, left, right, left.powspec, right.powspec
      ensures left.powspec[..] == Zeros(bins) && right.powspec[..] == Zeros(bins)
      ensures left.peak == 0.0 && right.peak == 0.0 && left.sumSq == 0.0 && right.sumSq == 0.0
      ensures left.los == old(left.los) && right.los == old(right.los)
      ensures left.Sane() && right.Sane()
      ensures cleared == |leftIn| && Energy()
    {
      var i := 0;
      while i < bins
        invariant 0 <= i <= bins
        invariant forall k :: 0 <= k < i ==> left.powspec[k] == 0.0 && right.powspec[k] == 0.0
        invariant left.los == old(left.los) && right.los == old(right.los)
      {
        left.powspec[i] := 0.0;
        right.powspec[i] := 0.0;
        i := i + 1;
      }
      assert left.powspec[..] == Zeros(bins) && right.powspec[..] == Zeros(bins);
      left.peak := 0.0;
      left.sumSq := 0.0;
      right.peak := 0.0;
      right.sumSq := 0.0;
      cleared := |leftIn|;
      AccumulatedCleared(leftIn);
      AccumulatedCleared(rightIn);
    }

    /** output_record: the record of the configured policy, then the clear-down. */
    method OutputRecord(clock: Clock) returns (err: Option<string>)
      requires Shape() && Files() && Paired() && left.Sane() && right.Sane()
      modifies this`cleared, left, right, left.powspec, right.powspec, store
      ensures match RecordStep(old(store.State()), old(left.powspec[..]), old(right.powspec[..]),
                               old(left.peak), old(right.peak), old(left.sumSq), old(right.sumSq), clock)
        case Ok(st) => err.None? && store.State() == st
        case Fatal(m) => err == Some(m)
      ensures left.los == old(left.los) && right.los == old(right.los)
      ensures err.Some? ==>
        && left.powspec[..] == old(left.powspec[..]) && right.powspec[..] == old(right.powspec[..])
        && left.peak == old(left.peak) && right.peak == old(right.peak)
        && left.sumSq == old(left.sumSq) && right.sumSq == old(right.sumSq) && cleared == old(cleared)
      ensures err.None? ==> cleared == |leftIn|
      ensures err.None? ==>
        && left.powspec[..] == Zeros(bins) && right.powspec[..] == Zeros(bins)
        && left.peak == 0.0 && right.peak == 0.0 && left.sumSq == 0.0 && right.sumSq == 0.0
        && Files() && left.Sane() && right.Sane() && Energy()
    {
      var values: seq<real> := [];
      if settings.policy != Spectrum {
        values := ComputeBandValues();
      }
      match settings.policy {
        case Spectrum =>
          var row := SpectrumFields();
          err := store.WriteShared(settings, FreqHeader(Freqs(cuton, cutoff, settings.sampleRate, fftwid)),
                                   clock.tv, clock.frac, row);
        case BandsMulti =>
          err := store.WriteShared(settings, MultiHeader(Idents(bands)), clock.tv, clock.frac,
                                   MultiFields(left.peak, right.peak, left.sumSq, right.sumSq, fftwid, values));
        case BandsEach =>
          err := store.WriteEach(settings, Idents(bands), clock.tv, clock.frac, values);
      }
      if err.Some? {
        return;
      }
      ClearRecord();
    }

    /** utility_spectrum: without a spectrum file nothing happens at all;
        otherwise the file is rewritten with one line per bin, and the
        spectrum accumulators are zeroed, the right one only in stereo. */
    method UtilitySpectrum()
      requires Shape() && left.Sane() && right.Sane() && uspecMax >= 1
      modifies this`utility, left.sigavg, right.sigavg
      ensures settings.uspecFile.None? ==>
        utility == old(utility) && left.sigavg[..] == old(left.sigavg[..]) && right.sigavg[..] == old(right.sigavg[..])
      ensures settings.uspecFile.Some? ==>
        && utility == Some(UtilityRows(old(left.sigavg[..]), old(right.sigavg[..]), settings.chans,
                                       settings.sampleRate, fftwid, uspecMax))
        && left.sigavg[..] == Zeros(bins)
        && right.sigavg[..] == (if settings.chans == 2 then Zeros(bins) else old(right.sigavg[..]))
      ensures left.Sane() && right.Sane()
    {
      if settings.uspecFile.None? {
        return;
      }
      ghost var rowsSpec := UtilityRows(left.sigavg[..], right.sigavg[..], settings.chans,
                                        settings.sampleRate, fftwid, uspecMax);
      var rows: seq<seq<real>> := [];
      var i := 0;
      while i < bins
        invariant 0 <= i <= bins
        invariant rows == rowsSpec[..i]
      {
        var row := [BinCentre(i, settings.sampleRate, fftwid), left.sigavg[i] / uspecMax as real];
        if settings.chans != 1 {
          row := row + [right.sigavg[i] / uspecMax as real];
        }
        assert row == rowsSpec[i];
        rows := rows + [row];
        i := i + 1;
      }
      assert rows == rowsSpec;
      utility := Some(rows);
      ZeroArray(left.sigavg);
      if settings.chans == 2 {
        ZeroArray(right.sigavg);
      }
    }

    /** The part of the state a frame can change, as values. */
    ghost function Snapshot(): (r: Snap)
      reads this, left, right, store, left.powspec, left.sigavg, right.powspec, right.sigavg
      ensures |r.lp| == left.powspec.Length && |r.rp| == right.powspec.Length
      ensures |r.ls| == left.sigavg.Length && |r.rs| == right.sigavg.Length
    {
      Snap(store.State(), frameCnt, uspecCnt, records, spectra, utility, alerts,
           left.powspec[..], right.powspec[..], left.sigavg[..], right.sigavg[..],
           left.los, right.los, left.peak, right.peak, left.sumSq, right.sumSq)
    }

    /** The state a client sees. */
    ghost function Visible(): (r: Seen)
      reads this, store
      ensures r.records == records && r.spectra == spectra && r.alerts == alerts && r.utility == utility
    {
      Seen(store.State(), records, spectra, utility, alerts)
    }

    /** The transform and accumulation of a full frame, given the spectra of
        the two frame buffers: both accumulators of the left channel and, in
        stereo, of the right one gain the frame's power, the record
        accumulator without its DC bin; check_los steps each such channel on
        its peak, with the alerts appended in order.  Nothing else moves. */
    function Transformed(b: Snap, lframe: seq<Complex>, rframe: seq<Complex>, clock: Clock): (m: Snap)
      requires Consts() && |b.lp| == |b.rp| == |b.ls| == |b.rs| == bins && bins <= |lframe| && bins <= |rframe|
      ensures |m.lp| == |m.rp| == |m.ls| == |m.rs| == bins && m.st == b.st
      ensures m.(lp := b.lp, rp := b.rp, ls := b.ls, rs := b.rs, alerts := b.alerts, llos := b.llos, rlos := b.rlos) == b
    {
      var stereo := settings.chans == 2;
      b.(lp := AddPowersNoDc(b.lp, lframe), rp := if stereo then AddPowersNoDc(b.rp, rframe) else b.rp,
         ls := AddPowers(b.ls, lframe), rs := if stereo then AddPowers(b.rs, rframe) else b.rs,
         alerts := b.alerts + AlertsAt(b.llos, b.lpeak, b.rlos, b.rpeak, clock),
         llos := LosAt(b.llos, b.lpeak, left.name, clock).state,
         rlos := if stereo then LosAt(b.rlos, b.rpeak, right.name, clock).state else b.rlos)
    }

    /** What a full frame does, from state b to state a, given the spectra
        of the two frame buffers: the transform and accumulation, then the
        output counter and, unless the record failed, the utility counter. */
    ghost predicate FrameStep(b: Snap, lframe: seq<Complex>, rframe: seq<Complex>, clock: Clock,
                              err: Option<string>, a: Snap)
      requires Consts() && |b.st.perBand| == |bands|
      requires |b.lp| == |b.rp| == |b.ls| == |b.rs| == bins && bins <= |lframe| && bins <= |rframe|
    {
      DoneStep(Transformed(b, lframe, rframe, clock), clock, err, a)
    }

    /** maybe_do_fft, called once per sample period: nothing happens until
        the frame is full; a full frame is transformed, then the output and
        utility-spectrum counters advance and fire on their intervals.  A
        fatal output error ends the step. */
    method MaybeDoFft(clock: Clock) returns (err: Option<string>)
      requires Shape() && Files() && Counters() && Energy() && Paired() && left.Sane() && right.Sane()
      requires |leftIn| == samples + 1 && |rightIn| == (if settings.chans == 2 then samples + 1 else 0)
      requires Holds(grabCnt + 1)
      modifies this`samples, this`frames, this`grabCnt, this`frameCnt, this`uspecCnt, this`records, this`spectra
      modifies this`alerts, this`utility, this`cleared
      modifies left, right, left.powspec, left.sigavg, right.powspec, right.sigavg, store
      ensures samples == old(samples) + 1
      ensures grabCnt == if old(grabCnt) + 1 < fftwid then old(grabCnt) + 1 else 0
      ensures err.None? ==> Running() && Filled()
      ensures old(grabCnt) + 1 < fftwid ==>
        err.None? && grabCnt == old(grabCnt) + 1 && Snapshot() == old(Snapshot())
      ensures old(grabCnt) + 1 == fftwid ==>
        FrameStep(old(Snapshot()), fft(old(left.inbuf[..])), fft(old(right.inbuf[..])), clock, err, Snapshot())
      ensures cleared == if old(grabCnt) + 1 == fftwid && old(frameCnt) + 1 == outputInt && err.None? then |leftIn|
                         else old(cleared)
    {
      if grabCnt + 1 < fftwid {
        Tick();
        err := None;
      } else {
        err := Wrap(clock);
      }
    }

    /** The cursor moving on within the frame: one more sample period. */
    method Tick()
      requires Counters() && grabCnt + 1 < fftwid && Holds(grabCnt + 1)
      requires |leftIn| == samples + 1 && |rightIn| == (if settings.chans == 2 then samples + 1 else 0)
      modifies this`samples, this`grabCnt
      ensures samples == old(samples) + 1 && grabCnt == old(grabCnt) + 1
      ensures Counters() && History() && Filled()
    {
      CycleStep(grabCnt, frames, samples, fftwid);
      samples := samples + 1;
      grabCnt := grabCnt + 1;
    }

    /** The cursor reaching FFTWID: it goes back to zero and the full frame
        is transformed, accumulated and counted. */
    method Wrap(clock: Clock) returns (err: Option<string>)
      requires Shape() && Files() && Counters() && Energy() && Paired() && left.Sane() && right.Sane()
      requires |leftIn| == samples + 1 && |rightIn| == (if settings.chans == 2 then samples + 1 else 0)
      requires grabCnt + 1 == fftwid
      modifies this`samples, this`frames, this`grabCnt, this`frameCnt, this`uspecCnt, this`records, this`spectra
      modifies this`alerts, this`utility, this`cleared
      modifies left, right, left.powspec, left.sigavg, right.powspec, right.sigavg, store
      ensures samples == old(samples) + 1 && grabCnt == 0
      ensures err.None? ==> Running() && Filled()
      ensures FrameStep(old(Snapshot()), fft(old(left.inbuf[..])), fft(old(right.inbuf[..])), clock, err, Snapshot())
      ensures cleared == if old(frameCnt) + 1 == outputInt && err.None? then |leftIn| else old(cleared)
    {
      ghost var b, lbuf, rbuf, n := Snapshot(), left.inbuf[..], right.inbuf[..], frames;
      Rewind();
      err := FullFrame(clock, b, lbuf, rbuf, n);
    }

    /** grab_cnt back to zero: one more sample period, which completes a frame. */
    method Rewind()
      requires fftwid > 0 && grabCnt + 1 == fftwid && Cycle(grabCnt, frames, samples, fftwid)
      modifies this`samples, this`frames, this`grabCnt
      ensures grabCnt == 0 && samples == old(samples) + 1 && frames == old(frames) + 1
      ensures Cycle(grabCnt, frames, samples, fftwid)
      ensures Snapshot() == old(Snapshot())
    {
      CycleStep(grabCnt, frames, samples, fftwid);
      grabCnt := 0;
      samples := samples + 1;
      frames := frames + 1;
    }

    /** A full frame, the cursor having gone back to zero: transformed and
        accumulated, then counted as the frames-th. */
    method FullFrame(clock: Clock, ghost b: Snap, ghost lbuf: seq<real>, ghost rbuf: seq<real>, ghost n: nat)
      returns (err: Option<string>)
      requires Shape() && Files() && Energy() && Paired() && left.Sane() && right.Sane()
      requires b == Snapshot() && lbuf == left.inbuf[..] && rbuf == right.inbuf[..]
      requires History() && fftwid > 0 && grabCnt < fftwid && Cycle(grabCnt, frames, samples, fftwid)
      requires frames == n + 1
      requires Cycle(frameCnt, records, n, outputInt) && Cycle(uspecCnt, spectra, n, uspecMax)
      modifies this`frameCnt, this`uspecCnt, this`records, this`spectra, this`alerts, this`utility
      modifies this`cleared, left, right, left.powspec, left.sigavg, right.powspec, right.sigavg, store
      ensures err.None? ==> Running()
      ensures FrameStep(b, fft(lbuf), fft(rbuf), clock, err, Snapshot())
      ensures cleared == if old(frameCnt) + 1 == outputInt && err.None? then |leftIn| else old(cleared)
    {
      ghost var lframe, rframe := fft(lbuf), fft(rbuf);
      ProcessFrame(clock);
      assert Snapshot() == Transformed(b, lframe, rframe, clock);
      err := FrameDone(clock, n);
    }

    /** The output counter's part of a frame, from state b whose
        accumulators include the frame: the counter advances; when it
        reaches output_int the record of the configured policy is written
        from the accumulators, the counter starts again from zero, and the
        record accumulators, peaks and sums of both channels are zeroed.  A
        fatal output error gives its message. */
    function AfterRecord(b: Snap, clock: Clock): (r: Outcome<Snap>)
      requires Consts() && |b.st.perBand| == |bands| && |b.lp| == |b.rp| == bins
      ensures r.Fatal? ==> b.frameCnt + 1 == outputInt
      ensures r.Ok? ==> r.value.records == b.records + (if b.frameCnt + 1 == outputInt then 1 else 0)
      ensures r.Ok? ==> r.value.frameCnt == (if b.frameCnt + 1 == outputInt then 0 else b.frameCnt + 1)
      ensures r.Ok? ==> r.value.(st := b.st, frameCnt := b.frameCnt, records := b.records, lp := b.lp, rp := b.rp,
                                 lpeak := b.lpeak, rpeak := b.rpeak, lsum := b.lsum, rsum := b.rsum) == b
    {
      if b.frameCnt + 1 != outputInt then Ok(b.(frameCnt := b.frameCnt + 1))
      else
        match RecordStep(b.st, b.lp, b.rp, b.lpeak, b.rpeak, b.lsum, b.rsum, clock)
        case Ok(next) =>
          Ok(b.(st := next, frameCnt := 0, records := b.records + 1, lp := Zeros(bins), rp := Zeros(bins),
                lpeak := 0.0, rpeak := 0.0, lsum := 0.0, rsum := 0.0))
        case Fatal(m) => Fatal(m)
    }

    /** check_los on one channel after a frame, both clock readings being
        the buffer's. */
    function LosAt(los: LosState, peak: real, name: string, clock: Clock): LosStep {
      CheckLos(los, peak, losThresh, settings.losTimeout, clock.tv.sec, clock.tv.sec, settings.chans, name)
    }

    /** The alerts of a frame: the left channel's, then in stereo the right one's. */
    function AlertsAt(llos: LosState, lpeak: real, rlos: LosState, rpeak: real, clock: Clock): seq<string> {
      FrameAlerts(LosAt(llos, lpeak, left.name, clock).alert, LosAt(rlos, rpeak, right.name, clock).alert,
                  settings.chans)
    }

    /** The utility counter's part of a frame: the counter advances; when
        it reaches uspec_max it starts again from zero and, with a spectrum
        file configured, the file is rewritten with the averages of the
        spectrum accumulators, which are then zeroed, the right one only in
        stereo. */
    function AfterSpectrum(b: Snap): (a: Snap)
      requires Consts() && |b.ls| == |b.rs| == bins
      ensures |a.ls| == |a.rs| == bins
      ensures a.spectra == b.spectra + (if b.uspecCnt + 1 == uspecMax && uspecMax >= 1 then 1 else 0)
      ensures a.(uspecCnt := b.uspecCnt, spectra := b.spectra, utility := b.utility, ls := b.ls, rs := b.rs) == b
    {
      if b.uspecCnt + 1 != uspecMax || uspecMax < 1 then b.(uspecCnt := b.uspecCnt + 1)
      else if settings.uspecFile.None? then b.(uspecCnt := 0, spectra := b.spectra + 1)
      else b.(uspecCnt := 0, spectra := b.spectra + 1,
              utility := Some(UtilityRows(b.ls, b.rs, settings.chans, settings.sampleRate, fftwid, uspecMax)),
              ls := Zeros(bins), rs := if settings.chans == 2 then Zeros(bins) else b.rs)
    }

    /** After a fatal output error the daemon exits: from state b only the
        output counter, the record count and the files have moved. */
    ghost predicate Failed(b: Snap, a: Snap) {
      a == b.(st := a.st, frameCnt := 0, records := b.records + 1)
    }

    /** What the counters do after a frame has been accumulated, from state
        m to state a: the output counter's part, then, unless the record
        failed, the utility counter's part. */
    ghost predicate DoneStep(m: Snap, clock: Clock, err: Option<string>, a: Snap)
      requires Consts() && |m.st.perBand| == |bands| && |m.lp| == |m.rp| == |m.ls| == |m.rs| == bins
    {
      match AfterRecord(m, clock)
      case Ok(r) => err.None? && a == AfterSpectrum(r)
      case Fatal(msg) => err == Some(msg) && Failed(m, a)
    }

    /** The output counter's part of a frame, from state b to state a. */
    ghost predicate RecordDone(b: Snap, clock: Clock, err: Option<string>, a: Snap)
      requires Consts() && |b.st.perBand| == |bands| && |b.lp| == |b.rp| == bins
    {
      match AfterRecord(b, clock)
      case Ok(r) => err.None? && a == r
      case Fatal(msg) => err == Some(msg) && Failed(b, a)
    }

    /** The output counter (b to m), then, unless the record failed, the
        utility counter (m to a), make up the counters' part of a frame. */
    lemma DoneOf(b: Snap, clock: Clock, err: Option<string>, m: Snap, a: Snap)
      requires Consts() && |b.st.perBand| == |bands| && |b.lp| == |b.rp| == |b.ls| == |b.rs| == bins
      requires RecordDone(b, clock, err, m)
      requires err.Some? ==> a == m
      requires err.None? ==> |m.ls| == |m.rs| == bins && a == AfterSpectrum(m)
      ensures DoneStep(b, clock, err, a)
    {
    }

    /** The second half of maybe_do_fft: the output counter, then the
        utility-spectrum counter, each counting one more frame. */
    method FrameDone(clock: Clock, ghost n: nat) returns (err: Option<string>)
      requires Shape() && Files() && Energy() && Paired() && left.Sane() && right.Sane()
      requires History() && fftwid > 0 && grabCnt < fftwid && Cycle(grabCnt, frames, samples, fftwid)
      requires frames == n + 1
      requires Cycle(frameCnt, records, n, outputInt)
      requires Cycle(uspecCnt, spectra, n, uspecMax)
      modifies this`frameCnt, this`uspecCnt, this`records, this`spectra, this`utility
      modifies this`cleared, left, right, left.powspec, left.sigavg, right.powspec, right.sigavg, store
      ensures err.None? ==> Running()
      ensures DoneStep(old(Snapshot()), clock, err, Snapshot())
      ensures cleared == if old(frameCnt) + 1 == outputInt && err.None? then |leftIn| else old(cleared)
    {
      ghost var b := Snapshot();
      err := RecordTick(clock, n);
      ghost var m := Snapshot();
      if err.Some? {
        DoneOf(b, clock, err, m, m);
        return;
      }
      SpectrumTick(n);
      DoneOf(b, clock, err, m, Snapshot());
    }

    /** The output counter of maybe_do_fft: one more frame, and the record
        written when the interval is reached. */
    method RecordTick(clock: Clock, ghost n: nat) returns (err: Option<string>)
      requires Shape() && Files() && Energy() && Paired() && left.Sane() && right.Sane()
      requires Cycle(frameCnt, records, n, outputInt)
      modifies this`frameCnt, this`records, this`cleared, left, right, left.powspec, right.powspec, store
      ensures err.None? ==> Files() && Energy() && left.Sane() && right.Sane()
      ensures err.None? ==> Cycle(frameCnt, records, n + 1, outputInt)
      ensures RecordDone(old(Snapshot()), clock, err, Snapshot())
      ensures cleared == if old(frameCnt) + 1 == outputInt && err.None? then |leftIn| else old(cleared)
    {
      CycleStep(frameCnt, records, n, outputInt);
      if frameCnt + 1 == outputInt {
        err := FireRecord(clock);
      } else {
        err := None;
        ghost var b := Snapshot();
        frameCnt := frameCnt + 1;
        assert Snapshot() == b.(frameCnt := frameCnt);
      }
    }

    /** The output counter reaching its interval: it goes back to zero and
        output_record runs. */
    method FireRecord(clock: Clock) returns (err: Option<string>)
      requires Shape() && Files() && Energy() && Paired() && left.Sane() && right.Sane()
      requires frameCnt + 1 == outputInt
      modifies this`frameCnt, this`records, this`cleared, left, right, left.powspec, right.powspec, store
      ensures err.None? ==> Files() && Energy() && left.Sane() && right.Sane()
      ensures frameCnt == 0 && records == old(records) + 1
      ensures RecordDone(old(Snapshot()), clock, err, Snapshot())
      ensures cleared == if err.None? then |leftIn| else old(cleared)
    {
      ghost var b := Snapshot();
      frameCnt, records := 0, records + 1;
      ghost var b1 := Snapshot();
      assert b1 == b.(frameCnt := 0, records := b.records + 1);
      err := OutputRecord(clock);
      if err.None? {
        assert Snapshot() == b1.(st := store.State(), lp := Zeros(bins), rp := Zeros(bins),
                                 lpeak := 0.0, rpeak := 0.0, lsum := 0.0, rsum := 0.0);
      } else {
        assert Snapshot() == b1.(st := store.State());
      }
    }

    /** The utility-spectrum counter of maybe_do_fft: one more frame, and the
        spectrum written when its interval is reached. */
    method SpectrumTick(ghost n: nat)
      requires Shape() && Files() && Energy() && left.Sane() && right.Sane()
      requires History() && fftwid > 0 && grabCnt < fftwid && Cycle(grabCnt, frames, samples, fftwid)
      requires frames == n + 1 && Cycle(frameCnt, records, n + 1, outputInt)
      requires Cycle(uspecCnt, spectra, n, uspecMax)
      modifies this`uspecCnt, this`spectra, this`utility, left.sigavg, right.sigavg
      ensures Running()
      ensures Snapshot() == AfterSpectrum(old(Snapshot()))
    {
      ghost var b := Snapshot();
      CycleStep(uspecCnt, spectra, n, uspecMax);
      if uspecCnt + 1 == uspecMax {
        uspecCnt, spectra := 0, spectra + 1;
        UtilitySpectrum();
      } else {
        uspecCnt := uspecCnt + 1;
        assert Snapshot() == b.(uspecCnt := uspecCnt);
      }
    }

    /** One sample period of process_signal's unpacking loop, before
        maybe_do_fft: the left sample f, then in stereo the right sample g,
        inserted at the frame cursor. */
    method TakePeriod(f: real, g: real)
      requires Shape() && grabCnt < fftwid && Filled() && Energy() && left.Sane() && right.Sane()
      modifies this`leftIn, this`rightIn, left, right, left.inbuf, right.inbuf
      ensures left.Sane() && right.Sane() && Holds(grabCnt + 1) && Energy()
      ensures leftIn == old(leftIn) + [f]
      ensures rightIn == if settings.chans == 2 then old(rightIn) + [g] else old(rightIn)
      ensures Snapshot() == Fed(old(Snapshot()), f, g)
    {
      ghost var s0 := Snapshot();
      AccumulatedStep(left.peak, left.sumSq, leftIn, cleared, f);
      FeedLeft(f);
      if settings.chans == 2 {
        AccumulatedStep(right.peak, right.sumSq, rightIn, cleared, g);
        FeedRight(g);
      }
    }

    /** insert_sample on the left channel, with the sample recorded. */
    method FeedLeft(f: real)
      requires Shape() && grabCnt < fftwid && Tail(left.inbuf[..], leftIn, window, grabCnt) && left.Sane()
      modifies this`leftIn, left, left.inbuf
      ensures leftIn == old(leftIn) + [f] && Tail(left.inbuf[..], leftIn, window, grabCnt + 1)
      ensures left.peak == Max(old(left.peak), Abs(f)) && left.sumSq == old(left.sumSq) + f * f
      ensures left.Sane() && Snapshot() == old(Snapshot()).(lpeak := left.peak, lsum := left.sumSq)
    {
      ghost var buf := left.inbuf[..];
      WindowedStep(buf, leftIn, window, grabCnt, f);
      left.InsertSample(f, window[grabCnt], grabCnt);
      leftIn := leftIn + [f];
    }

    /** insert_sample on the right channel, with the sample recorded. */
    method FeedRight(f: real)
      requires Shape() && grabCnt < fftwid && Tail(right.inbuf[..], rightIn, window, grabCnt) && right.Sane()
      modifies this`rightIn, right, right.inbuf
      ensures rightIn == old(rightIn) + [f] && Tail(right.inbuf[..], rightIn, window, grabCnt + 1)
      ensures right.peak == Max(old(right.peak), Abs(f)) && right.sumSq == old(right.sumSq) + f * f
      ensures right.Sane() && Snapshot() == old(Snapshot()).(rpeak := right.peak, rsum := right.sumSq)
    {
      ghost var buf := right.inbuf[..];
      WindowedStep(buf, rightIn, window, grabCnt, f);
      right.InsertSample(f, window[grabCnt], grabCnt);
      rightIn := rightIn + [f];
    }


    /** State b after the samples f and, in stereo, g have been taken in but
        before maybe_do_fft: only the peaks and the sums of squares move. */
    function Fed(b: Snap, f: real, g: real): (r: Snap)
      ensures r.lpeak >= b.lpeak && r.lpeak >= Abs(f)
      ensures settings.chans == 2 ==> r.rpeak >= b.rpeak && r.rpeak >= Abs(g)
      ensures r.(lpeak := b.lpeak, lsum := b.lsum, rpeak := b.rpeak, rsum := b.rsum) == b
    {
      var stereo := settings.chans == 2;
      b.(lpeak := Max(b.lpeak, Abs(f)), lsum := b.lsum + f * f,
         rpeak := if stereo then Max(b.rpeak, Abs(g)) else b.rpeak,
         rsum := if stereo then b.rsum + g * g else b.rsum)
    }

    /** One sample period of process_signal, from state b with frame cursor
        at, samples lin and rin taken in so far and the last clear-down after
        sample from, to state a with cursor at' and samples lin' and rin'.
        The sample f and, in stereo, g are taken in.  Until the frame is full
        only the cursor, the peaks and the sums move: no record, spectrum,
        alert or accumulator changes.  On the full frame, the frame
        transformed is the last FFTWID samples of each channel, windowed;
        check_los and the record see the peak and sum of squares of every
        sample since the last clear-down; and the record and the utility
        spectrum follow their counters, from accumulators that include this
        frame.  (In mono the right frame plays no part in a frame step.) */
    ghost predicate PeriodStep(b: Snap, at: int, lin: seq<real>, rin: seq<real>, from: nat, f: real, g: real,
                               clock: Clock, err: Option<string>, a: Snap, at': int, lin': seq<real>, rin': seq<real>)
      requires Consts() && |b.st.perBand| == |bands| && |b.lp| == |b.rp| == |b.ls| == |b.rs| == bins
    {
      var stereo := settings.chans == 2;
      && lin' == lin + [f]
      && rin' == (if stereo then rin + [g] else rin)
      && at' == (if at + 1 < fftwid then at + 1 else 0)
      && (at + 1 < fftwid ==> err.None? && a == Fed(b, f, g))
      && (at + 1 == fftwid && fftwid <= |lin'| && from <= |lin'| && (stereo ==> fftwid <= |rin'| && from <= |rin'|) ==>
            FrameStep(SinceClear(b, lin', rin', from), LastFrame(lin'),
                      if stereo then LastFrame(rin') else LastFrame(lin'), clock, err, a))
    }

    /** State b with each channel's peak and sum of squares those of its
        samples since clear-down point from; in mono the right ones zero. */
    function SinceClear(b: Snap, lin: seq<real>, rin: seq<real>, from: nat): Snap
      requires from <= |lin| && (settings.chans == 2 ==> from <= |rin|)
    {
      var stereo := settings.chans == 2;
      b.(lpeak := PeakFrom(lin, from), lsum := SumFrom(lin, from),
         rpeak := if stereo then PeakFrom(rin, from) else 0.0,
         rsum := if stereo then SumFrom(rin, from) else 0.0)
    }

    /** The spectrum of the last FFTWID samples of a history, windowed. */
    function LastFrame(hist: seq<real>): seq<Complex>
      requires Consts() && fftwid <= |hist|
    {
      fft(Windowed(hist[|hist| - fftwid..], window))
    }

    /** Taking in the samples (b to s, with frame buffers lbuf and rbuf
        afterwards), then maybe_do_fft (s to a), make up a sample period. */
    lemma PeriodOf(b: Snap, at: int, lin: seq<real>, rin: seq<real>, from: nat, f: real, g: real,
                   clock: Clock, err: Option<string>, s: Snap, lbuf: seq<real>, rbuf: seq<real>,
                   a: Snap, at': int, lin': seq<real>, rin': seq<real>)
      requires Consts() && |b.st.perBand| == |bands| && |b.lp| == |b.rp| == |b.ls| == |b.rs| == bins
      requires s == Fed(b, f, g) && |lbuf| == fftwid && |rbuf| == fftwid
      requires lin' == lin + [f] && rin' == (if settings.chans == 2 then rin + [g] else rin)
      requires at' == (if at + 1 < fftwid then at + 1 else 0)
      requires at + 1 < fftwid ==> err.None? && a == s
      requires at + 1 == fftwid ==>
        FrameTaken(b, from, s, lbuf, rbuf, lin', rin') && FrameStep(s, fft(lbuf), fft(rbuf), clock, err, a)
      ensures PeriodStep(b, at, lin, rin, from, f, g, clock, err, a, at', lin', rin')
    {
      if at + 1 == fftwid && settings.chans == 1 {
        FrameStepMono(s, fft(lbuf), fft(rbuf), LastFrame(lin'), clock, err, a);
      }
    }

    /** On a full frame, state s and frame buffers lbuf and rbuf are as a
        frame step sees them: the buffers hold the last FFTWID samples of
        each channel, windowed, and the peaks and sums are those of every
        sample since clear-down point from. */
    ghost predicate FrameTaken(b: Snap, from: nat, s: Snap, lbuf: seq<real>, rbuf: seq<real>,
                               lin: seq<real>, rin: seq<real>)
      requires Consts()
    {
      var stereo := settings.chans == 2;
      && fftwid <= |lin| && from <= |lin| && (stereo ==> fftwid <= |rin| && from <= |rin|)
      && s == SinceClear(b, lin, rin, from) && fft(lbuf) == LastFrame(lin)
      && (stereo ==> fft(rbuf) == LastFrame(rin))
    }

    /** The full frame of a sample period is the last FFTWID samples of each
        channel, windowed, and its step starts from the peaks and sums of
        every sample since the last clear-down. */
    lemma FrameArgs(b: Snap, from: nat, s: Snap, lbuf: seq<real>, rbuf: seq<real>, lin: seq<real>, rin: seq<real>)
      requires Consts()
      requires s.(lpeak := b.lpeak, lsum := b.lsum, rpeak := b.rpeak, rsum := b.rsum) == b
      requires |lbuf| == fftwid && Tail(lbuf, lin, window, fftwid) && Accumulated(s.lpeak, s.lsum, lin, from)
      requires settings.chans == 2 ==>
        |rbuf| == fftwid && Tail(rbuf, rin, window, fftwid) && Accumulated(s.rpeak, s.rsum, rin, from)
      requires settings.chans == 1 ==> s.rpeak == 0.0 && s.rsum == 0.0
      ensures FrameTaken(b, from, s, lbuf, rbuf, lin, rin)
    {
      FrameOf(lbuf, lin);
      if settings.chans == 2 {
        FrameOf(rbuf, rin);
      }
    }

    /** A full frame buffer holding the windowed tail of a history is
        transformed as the last FFTWID samples of that history, windowed. */
    lemma FrameOf(buf: seq<real>, hist: seq<real>)
      requires |buf| == fftwid && Tail(buf, hist, window, fftwid)
      ensures fftwid <= |hist| && fft(buf) == fft(Windowed(hist[|hist| - fftwid..], window))
    {
      TailFull(buf, hist, window, fftwid);
    }

    /** In mono the right frame plays no part in a frame step. */
    lemma FrameStepMono(b: Snap, lframe: seq<Complex>, r1: seq<Complex>, r2: seq<Complex>, clock: Clock,
                        err: Option<string>, a: Snap)
      requires Consts() && |b.st.perBand| == |bands| && |b.lp| == |b.rp| == |b.ls| == |b.rs| == bins
      requires bins <= |lframe| && bins <= |r1| && bins <= |r2|
      requires settings.chans == 1 && FrameStep(b, lframe, r1, clock, err, a)
      ensures FrameStep(b, lframe, r2, clock, err, a)
    {
    }

    /** One pass of process_signal's loop: the samples f and, in stereo, g
        of one period are taken in, then maybe_do_fft runs. */
    method OnePeriod(f: real, g: real, clock: Clock) returns (err: Option<string>)
      requires Valid() && Filled()
      modifies this`samples, this`frames, this`grabCnt, this`frameCnt, this`uspecCnt, this`records, this`spectra
      modifies this`alerts, this`utility, this`leftIn, this`rightIn, this`cleared
      modifies left, right, left.inbuf, right.inbuf, left.powspec, left.sigavg, right.powspec, right.sigavg, store
      ensures err.None? ==> Running() && Filled()
      ensures samples == old(samples) + 1
      ensures PeriodStep(old(Snapshot()), old(grabCnt), old(leftIn), old(rightIn), old(cleared), f, g, clock, err,
                         Snapshot(), grabCnt, leftIn, rightIn)
      ensures cleared == if old(grabCnt) + 1 == fftwid && old(frameCnt) + 1 == outputInt && err.None? then |leftIn|
                         else old(cleared)
      ensures old(grabCnt) + 1 == fftwid ==>
        fftwid <= |leftIn| && old(cleared) <= |leftIn|
        && (settings.chans == 2 ==> fftwid <= |rightIn| && old(cleared) <= |rightIn|)
    {
      CounterAtMost(samples, fftwid);
      ghost var b, at, from, lin, rin := Snapshot(), grabCnt, cleared, leftIn, rightIn;
      TakePeriod(f, g);
      err := Advance(clock, b, at, from, lin, rin, f, g);
    }

    /** maybe_do_fft once the samples f and g have been taken in, from state
        b with cursor at, samples lin and rin and clear-down point from. */
    method Advance(clock: Clock, ghost b: Snap, ghost at: int, ghost from: nat, ghost lin: seq<real>,
                   ghost rin: seq<real>, ghost f: real, ghost g: real) returns (err: Option<string>)
      requires Shape() && Files() && Counters() && Energy() && Paired() && left.Sane() && right.Sane()
      requires |leftIn| == samples + 1 && |rightIn| == (if settings.chans == 2 then samples + 1 else 0)
      requires Holds(grabCnt + 1) && grabCnt == at && cleared == from && |b.st.perBand| == |bands|
      requires |b.lp| == |b.rp| == |b.ls| == |b.rs| == bins
      requires leftIn == lin + [f] && rightIn == (if settings.chans == 2 then rin + [g] else rin)
      requires Snapshot() == Fed(b, f, g)
      modifies this`samples, this`frames, this`grabCnt, this`frameCnt, this`uspecCnt, this`records, this`spectra
      modifies this`alerts, this`utility, this`cleared
      modifies left, right, left.powspec, left.sigavg, right.powspec, right.sigavg, store
      ensures err.None? ==> Running() && Filled()
      ensures samples == old(samples) + 1
      ensures PeriodStep(b, at, lin, rin, from, f, g, clock, err, Snapshot(), grabCnt, leftIn, rightIn)
      ensures cleared == if old(grabCnt) + 1 == fftwid && old(frameCnt) + 1 == outputInt && err.None? then |leftIn|
                         else old(cleared)
    {
      ghost var s, lbuf, rbuf := Snapshot(), left.inbuf[..], right.inbuf[..];
      if at + 1 == fftwid {
        FrameArgs(b, from, s, lbuf, rbuf, leftIn, rightIn);
      }
      err := MaybeDoFft(clock);
      PeriodOf(b, at, lin, rin, from, f, g, clock, err, s, lbuf, rbuf, Snapshot(), grabCnt, leftIn, rightIn);
    }

    /** Period i of an interleaved buffer through OnePeriod: what has been
        taken in since lin and rin grows from the first i periods of the
        buffer to the first i + 1, and the period makes progress. */
    method BufferPeriod(buff: seq<byte>, i: nat, clock: Clock, ghost lin: seq<real>, ghost rin: seq<real>,
                        ghost s0: Seen, ghost n0: nat) returns (err: Option<string>)
      requires Valid() && Filled() && Progress(s0, Visible()) && samples == n0 + i
      requires i * settings.chans * settings.bytes <= |buff| && (i + 1) * settings.chans * settings.bytes <= |buff|
      requires leftIn == lin + ChannelSamples(buff, settings.bytes, settings.chans, 0, i)
      requires settings.chans == 2 ==> rightIn == rin + ChannelSamples(buff, settings.bytes, 2, 1, i)
      modifies this`samples, this`frames, this`grabCnt, this`frameCnt, this`uspecCnt, this`records, this`spectra
      modifies this`alerts, this`utility, this`leftIn, this`rightIn, this`cleared
      modifies left, right, left.inbuf, right.inbuf, left.powspec, left.sigavg, right.powspec, right.sigavg, store
      ensures err.None? ==> Running() && Filled()
      ensures samples == n0 + i + 1
      ensures Progress(s0, Visible())
      ensures leftIn == lin + ChannelSamples(buff, settings.bytes, settings.chans, 0, i + 1)
      ensures settings.chans == 2 ==> rightIn == rin + ChannelSamples(buff, settings.bytes, 2, 1, i + 1)
    {
      var f := PeriodSample(buff, settings.bytes, settings.chans, 0, i);
      var g := 0.0;
      if settings.chans == 2 {
        g := PeriodSample(buff, settings.bytes, 2, 1, i);
        AppendOne(rin, ChannelSamples(buff, settings.bytes, 2, 1, i), g);
      }
      AppendOne(lin, ChannelSamples(buff, settings.bytes, settings.chans, 0, i), f);
      ghost var b, at, from, lin0, rin0 := Snapshot(), grabCnt, cleared, leftIn, rightIn;
      CounterAtMost(samples, fftwid);
      err := OnePeriod(f, g, clock);
      PeriodProgress(b, at, lin0, rin0, from, f, g, clock, err, Snapshot(), grabCnt, leftIn, rightIn);
      assert b.Outside() == old(Visible()) && Snapshot().Outside() == Visible();
      ProgressTrans(s0, old(Visible()), Visible());
    }

    /** A sample period makes progress. */
    lemma PeriodProgress(b: Snap, at: int, lin: seq<real>, rin: seq<real>, from: nat, f: real, g: real,
                         clock: Clock, err: Option<string>, a: Snap, at': int, lin': seq<real>, rin': seq<real>)
      requires Consts() && |b.st.perBand| == |bands| && |b.lp| == |b.rp| == |b.ls| == |b.rs| == bins
      requires at + 1 == fftwid ==> fftwid <= |lin'| && from <= |lin'|
      requires at + 1 == fftwid && settings.chans == 2 ==> fftwid <= |rin'| && from <= |rin'|
      requires 0 <= at < fftwid
      requires PeriodStep(b, at, lin, rin, from, f, g, clock, err, a, at', lin', rin')
      ensures Progress(b.Outside(), a.Outside())
    {
      var stereo := settings.chans == 2;
      if at + 1 == fftwid {
        FrameProgress(SinceClear(b, lin', rin', from), LastFrame(lin'),
                      if stereo then LastFrame(rin') else LastFrame(lin'), clock, err, a);
      }
    }

    /** A frame step makes progress. */
    lemma FrameProgress(b: Snap, lframe: seq<Complex>, rframe: seq<Complex>, clock: Clock,
                        err: Option<string>, a: Snap)
      requires Consts() && |b.st.perBand| == |bands|
      requires |b.lp| == |b.rp| == |b.ls| == |b.rs| == bins && bins <= |lframe| && bins <= |rframe|
      requires FrameStep(b, lframe, rframe, clock, err, a)
      ensures Progress(b.Outside(), a.Outside())
    {
      var m := Transformed(b, lframe, rframe, clock);
      match AfterRecord(m, clock)
      case Ok(r) =>
        ProgressTrans(b.Outside(), m.Outside(), r.Outside());
        ProgressTrans(b.Outside(), r.Outside(), a.Outside());
      case Fatal(_) =>
    }

    /** The counters read as counts: the frames completed are the samples
        taken in divided by FFTWID, and the records and utility spectra
        written are the frames divided by their intervals, none when the
        interval is below 1. */
    lemma Tally()
      requires Consts() && Counters()
      ensures frames == samples / fftwid && grabCnt == samples % fftwid
      ensures records == (if outputInt >= 1 then frames / outputInt else 0)
      ensures spectra == (if uspecMax >= 1 then frames / uspecMax else 0)
    {
      CounterDivMod(samples, fftwid);
      if outputInt >= 1 {
        CounterDivMod(frames, outputInt);
      } else {
        CounterNeverFires(frames, outputInt);
      }
      if uspecMax >= 1 {
        CounterDivMod(frames, uspecMax);
      } else {
        CounterNeverFires(frames, uspecMax);
      }
    }

    /** process_signal on one buffer of q sample periods, as returned by the
        sound card read: each period is taken in and maybe_do_fft follows.
        Alerts are only appended, and the files and the utility spectrum
        change only with a record or a spectrum.  Unless an output error
        ends the buffer early, every sample of the buffer has been taken in,
        in order, the frame under assembly is the tail of them, and the
        records and spectra written so far are those due for the frames
        completed. */
    method ProcessBuffer(buff: seq<byte>, q: nat, clock: Clock) returns (err: Option<string>)
      requires Valid() && Filled()
      requires q * settings.chans * settings.bytes <= |buff|
      modifies this`samples, this`frames, this`grabCnt, this`frameCnt, this`uspecCnt, this`records, this`spectra
      modifies this`alerts, this`utility, this`leftIn, this`rightIn, this`cleared
      modifies left, right, left.inbuf, right.inbuf, left.powspec, left.sigavg, right.powspec, right.sigavg, store
      ensures Progress(old(Visible()), Visible())
      ensures err.None? ==> Running() && Filled() && samples == old(samples) + q
      ensures err.None? ==> leftIn == old(leftIn) + ChannelSamples(buff, settings.bytes, settings.chans, 0, q)
      ensures err.None? && settings.chans == 2 ==>
        rightIn == old(rightIn) + ChannelSamples(buff, settings.bytes, 2, 1, q)
    {
      err := None;
      ghost var lin, rin, s0, n0 := leftIn, rightIn, Visible(), samples;
      var i := 0;
      while i < q
        invariant 0 <= i <= q
        invariant Running() && Filled() && samples == n0 + i
        invariant i * settings.chans * settings.bytes <= |buff|
        invariant leftIn == lin + ChannelSamples(buff, settings.bytes, settings.chans, 0, i)
        invariant settings.chans == 2 ==> rightIn == rin + ChannelSamples(buff, settings.bytes, 2, 1, i)
        invariant Progress(s0, Visible())
      {
        PrefixFits(i + 1, q, settings.chans, settings.bytes, |buff|);
        err := BufferPeriod(buff, i, clock, lin, rin, s0, n0);
        if err.Some? {
          break;
        }
        i := i + 1;
      }
    }
  }

  /** Zeroes every element of an accumulator. */
  method ZeroArray(a: array<real>)
    modifies a
    ensures a[..] == Zeros(a.Length)
  {
    var i := 0;
    while i < a.Length
      invariant 0 <= i <= a.Length
      invariant forall k :: 0 <= k < i ==> a[k] == 0.0
    {
      a[i] := 0.0;
      i := i + 1;
    }
  }
}
