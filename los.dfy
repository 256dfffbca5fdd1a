/** Loss-of-signal detection (check_los): a two-state machine per channel
    with a pending timer.  In the normal state a frame whose peak is below
    the threshold starts the timer and one above it cancels the timer; once
    the timer is older than the timeout the channel is declared lost.  The
    lost state works the same way with the two comparisons swapped.  Every
    change of state raises exactly one alert. */
module Los {
  import opened Basics

  /** The per-channel fields los_state and los_time; a timer of 0 means no
      timer is running. */
  datatype LosState = LosState(lost: bool, timer: int)

  /** The new fields and the alert raised, if any. */
  datatype LosStep = LosStep(state: LosState, alert: Option<string>)

  /** The alert text for a change into state `lost`; the channel is named
      only when the daemon runs in stereo. */
  function AlertText(lost: bool, chans: int, name: string): (m: string)
    ensures chans == 1 ==> m == (if lost then "loss of signal" else "signal restored")
    ensures chans != 1 ==> m == (if lost then "loss of signal" else "signal restored") + " on " + name
  {
    var base := if lost then "loss of signal" else "signal restored";
    if chans == 1 then base else base + " on " + name
  }

  /** One call of check_los after a frame.  `start` is the clock reading
      taken when the timer starts and `now` the one compared against it
      (the daemon reads the clock twice). */
  function CheckLos(s: LosState, peak: real, thresh: real, timeout: int,
                    start: int, now: int, chans: int, name: string): (r: LosStep)
    ensures r.state.timer == 0 || r.state.timer == s.timer || r.state.timer == start
  {
    // Beyond the threshold means below it while normal, above it while lost.
    var beyond := if s.lost then peak > thresh else peak < thresh;
    var back := if s.lost then peak < thresh else peak > thresh;
    var t1 := if s.timer == 0 && beyond then start else s.timer;
    var t2 := if t1 != 0 && back then 0 else t1;
    if t2 != 0 && t2 + timeout < now then
      LosStep(LosState(!s.lost, 0), Some(AlertText(!s.lost, chans, name)))
    else
      LosStep(LosState(s.lost, t2), None)
  }

  /** An alert is raised exactly when the state changes, and it names the
      state entered. */
  lemma AlertIffChange(s: LosState, peak: real, thresh: real, timeout: int,
                       start: int, now: int, chans: int, name: string)
    ensures var r := CheckLos(s, peak, thresh, timeout, start, now, chans, name);
      (r.alert.Some? <==> r.state.lost != s.lost)
      && (r.alert.Some? ==> r.alert.value == AlertText(r.state.lost, chans, name))
  {
  }

  /** A change of state needs the peak on the far side of the threshold or
      on it (never back across it), a timer older than the timeout, and
      leaves no timer running. */
  lemma ChangeNeedsTimeout(s: LosState, peak: real, thresh: real, timeout: int,
                           start: int, now: int, chans: int, name: string)
    requires CheckLos(s, peak, thresh, timeout, start, now, chans, name).state.lost != s.lost
    ensures if s.lost then peak >= thresh else peak <= thresh
    ensures var t := if s.timer != 0 then s.timer else start;
      t != 0 && t + timeout < now
    ensures CheckLos(s, peak, thresh, timeout, start, now, chans, name).state.timer == 0
  {
  }

  /** A peak exactly at the threshold neither starts nor cancels a timer:
      the state changes only through a timer already running. */
  lemma PeakAtThresholdKeepsTimer(s: LosState, thresh: real, timeout: int,
                                  start: int, now: int, chans: int, name: string)
    ensures var r := CheckLos(s, thresh, thresh, timeout, start, now, chans, name);
      if s.timer != 0 && s.timer + timeout < now
      then r.state == LosState(!s.lost, 0)
      else r == LosStep(s, None)
  {
  }

  /** A peak back on the home side of the threshold cancels the pending
      timer and the state stays as it is. */
  lemma BackCancelsTimer(s: LosState, peak: real, thresh: real, timeout: int,
                         start: int, now: int, chans: int, name: string)
    requires if s.lost then peak < thresh else peak > thresh
    ensures CheckLos(s, peak, thresh, timeout, start, now, chans, name)
         == LosStep(LosState(s.lost, 0), None)
  {
  }

  /** A peak beyond the threshold with no timer running starts one at the
      clock reading, unless the timeout has already gone by. */
  lemma BeyondStartsTimer(s: LosState, peak: real, thresh: real, timeout: int,
                          start: int, now: int, chans: int, name: string)
    requires s.timer == 0 && start != 0 && !(start + timeout < now)
    requires if s.lost then peak > thresh else peak < thresh
    ensures CheckLos(s, peak, thresh, timeout, start, now, chans, name)
         == LosStep(LosState(s.lost, start), None)
  {
  }

  /** The lost state mirrors the normal one: negating the peak and the
      threshold and swapping the states gives the same timer and the same
      changes. */
  lemma Mirror(lost: bool, timer: int, peak: real, thresh: real, timeout: int,
               start: int, now: int, chans: int, name: string)
    ensures var a := CheckLos(LosState(lost, timer), peak, thresh, timeout, start, now, chans, name);
      var b := CheckLos(LosState(!lost, timer), -peak, -thresh, timeout, start, now, chans, name);
      b.state == LosState(!a.state.lost, a.state.timer)
      && (a.alert.Some? <==> b.alert.Some?)
  {
  }

  /** A weak signal over two frames: the first starts the timer, and once
      the timeout has gone by the second declares the loss, with one alert. */
  lemma {:induction false} SustainedLoss(peak1: real, peak2: real, thresh: real, timeout: int,
                                         t0: int, t1: int, chans: int, name: string)
    requires peak1 < thresh && peak2 < thresh
    requires t0 != 0 && !(t0 + timeout < t0) && t0 + timeout < t1
    ensures var first := CheckLos(LosState(false, 0), peak1, thresh, timeout, t0, t0, chans, name);
      var second := CheckLos(first.state, peak2, thresh, timeout, t1, t1, chans, name);
      first == LosStep(LosState(false, t0), None)
      && second == LosStep(LosState(true, 0), Some(AlertText(true, chans, name)))
  {
    BeyondStartsTimer(LosState(false, 0), peak1, thresh, timeout, t0, t0, chans, name);
  }
}
