/** The feedback loop of the screen sender: after every frame sent it adjusts
    picture quality and frame rate to what was measured.  Measurements are
    arbitrary; the user's options stay fixed. */
module AdaptiveLoop {
  import opened Protocol

  datatype Options = Options(limitKbps: int, captureFps: int, captureQuality: int)

  datatype Measured = Measured(bitrate: nat, loss: int, rtt: int)

  const MIN_QUALITY := 20
  const MAX_QUALITY := 90
  const DEFAULT_QUALITY := 55

  // ---------------------------------------------------------------- one decision

  predicate TooMuch(o: Options, m: Measured) {
    o.limitKbps > 0 && m.bitrate > o.limitKbps
  }

  /** Below sixty percent of the limit, in whole kilobits. */
  predicate HasSlack(o: Options, m: Measured) {
    o.limitKbps > 0 && m.bitrate < o.limitKbps * 6 / 10
  }

  function NextQuality(current: int, o: Options, m: Measured): int {
    if o.limitKbps <= 0 then current
    else if TooMuch(o, m) && current > 25 then current - 5
    else if HasSlack(o, m) && current < o.captureQuality then current + 2
    else current
  }

  predicate Congested(o: Options, m: Measured) {
    TooMuch(o, m) || m.loss >= 500 || m.rtt >= 350
  }

  predicate Healthy(o: Options, m: Measured) {
    (o.limitKbps <= 0 || HasSlack(o, m)) && m.loss <= 100 && m.rtt < 180
  }

  function AtLeastOne(n: int): int {
    if n < 1 then 1 else n
  }

  function NextFps(current: int, o: Options, m: Measured): int {
    if o.captureFps <= 1 then AtLeastOne(current)
    else
      var now := if current <= 0 then o.captureFps else current;
      if Congested(o, m) && now > 1 then now - 1
      else if Healthy(o, m) && now < o.captureFps then now + 1
      else now
  }

  function FrameInterval(fps: int): (d: int)
    ensures fps <= 1 ==> d == SECOND
  {
    SECOND / (if fps <= 0 then 1 else fps)
  }

  // ------------------------------------------------------------- the capturer

  function Distance(a: int, b: int): nat {
    if a <= b then b - a else a - b
  }

  function Clamped(quality: int): int {
    if quality < MIN_QUALITY then MIN_QUALITY else if quality > MAX_QUALITY then MAX_QUALITY else quality
  }

  lemma NearestIsClamped(q: int, nearest: int)
    requires MIN_QUALITY <= nearest <= MAX_QUALITY
    requires forall x :: MIN_QUALITY <= x <= MAX_QUALITY ==> Distance(q, nearest) <= Distance(q, x)
    ensures nearest == Clamped(q)
  {
    assert Distance(q, nearest) <= Distance(q, Clamped(q));
  }

  class Capturer {
    var quality: int

    /** What it is created with is not clamped. */
    constructor (quality: int)
      ensures this.quality == InitialQuality(quality)
      ensures this.quality == (if quality > 0 then quality else 55)
    {
      if quality <= 0 {
        this.quality := DEFAULT_QUALITY;
      } else {
        this.quality := quality;
      }
    }

    /** The capturer takes the quality within its range that is nearest to what it
        is asked for, so what is in range is taken as it is. */
    method SetQuality(q: int)
      modifies this
      ensures MIN_QUALITY <= quality <= MAX_QUALITY
      ensures forall x :: MIN_QUALITY <= x <= MAX_QUALITY ==> Distance(q, quality) <= Distance(q, x)
      ensures quality == q <==> MIN_QUALITY <= q <= MAX_QUALITY
    {
      quality := q;
      if quality < MIN_QUALITY {
        quality := MIN_QUALITY;
      }
      if quality > MAX_QUALITY {
        quality := MAX_QUALITY;
      }
    }
  }

  function InitialQuality(quality: int): int {
    if quality <= 0 then DEFAULT_QUALITY else quality
  }

  // ------------------------------------------------------------------ the loop

  /** What the loop tracks, and what the capturer really uses. */
  datatype Tuning = Tuning(quality: int, fps: int, actual: int)

  function Start(o: Options): Tuning {
    Tuning(o.captureQuality, o.captureFps, InitialQuality(o.captureQuality))
  }

  /** One frame sent. */
  function Adjusted(t: Tuning, o: Options, m: Measured): Tuning {
    var q := NextQuality(t.quality, o, m);
    Tuning(q, NextFps(t.fps, o, m), if q == t.quality then t.actual else Clamped(q))
  }

  function Run(o: Options, ms: seq<Measured>): Tuning {
    if ms == [] then Start(o) else Adjusted(Run(o, ms[..|ms| - 1]), o, ms[|ms| - 1])
  }

  class StreamLoop {
    const options: Options
    const capturer: Capturer
    var quality: int
    var fps: int
    var interval: int

    constructor (o: Options)
      ensures options == o && fresh(capturer)
      ensures Current() == Start(o) && interval == FrameInterval(o.captureFps)
    {
      options := o;
      capturer := new Capturer(o.captureQuality);
      quality := o.captureQuality;
      fps := o.captureFps;
      interval := FrameInterval(o.captureFps);
    }

    function Current(): Tuning
      reads this, capturer
    {
      Tuning(quality, fps, capturer.quality)
    }

    method AdjustCaptureQuality(current: int, m: Measured) returns (next: int)
      modifies capturer
      ensures next == NextQuality(current, options, m)
      ensures next in {current - 5, current, current + 2}
      ensures next < current <==> 0 < options.limitKbps < m.bitrate && current > 25
      ensures next > current <==> 0 < options.limitKbps && m.bitrate < options.limitKbps * 6 / 10 && current < options.captureQuality
      ensures capturer.quality == if next == current then old(capturer.quality) else Clamped(next)
    {
      var limit := options.limitKbps;
      if limit <= 0 {
        return current;
      }
      next := current;
      if m.bitrate > limit && current > 25 {
        next := current - 5;
      } else if m.bitrate < limit * 6 / 10 && current < options.captureQuality {
        next := current + 2;
      }
      if next == current {
        return;
      }
      capturer.SetQuality(next);
      NearestIsClamped(next, capturer.quality);
    }

    /** One step at most, and never out of range again: down while the bitrate is
        over its limit, five percent are lost or the round trip takes 350 ms; up
        while it is below sixty percent of the limit, at most one percent is lost
        and the round trip takes less than 180 ms. */
    method AdjustCaptureFps(current: int, m: Measured) returns (next: int)
      ensures next == NextFps(current, options, m)
      ensures 1 <= current <= options.captureFps ==>
                && 1 <= next <= options.captureFps && current - 1 <= next <= current + 1
                && (next < current <==>
                      (0 < options.limitKbps < m.bitrate || m.loss >= 500 || m.rtt >= 350) && current > 1)
                && (next > current <==>
                      (options.limitKbps <= 0 || m.bitrate < options.limitKbps * 6 / 10) && m.loss <= 100 && m.rtt < 180
                      && current < options.captureFps)
      ensures options.captureFps <= 1 ==> next == (if current >= 1 then current else 1)
    {
      if options.captureFps <= 1 {
        return if current < 1 then 1 else current;
      }
      next := current;
      if current <= 0 {
        next := options.captureFps;
      }
      var limit := options.limitKbps;
      var congested := (limit > 0 && m.bitrate > limit) || m.loss >= 500 || m.rtt >= 350;
      var healthy := (limit <= 0 || m.bitrate < limit * 6 / 10) && m.loss <= 100 && m.rtt < 180;
      if congested && next > 1 {
        next := next - 1;
      } else if healthy && next < options.captureFps {
        next := next + 1;
      }
    }

    /** After each frame sent; the ticker is reset only when the rate changes. */
    method FrameSent(m: Measured)
      requires interval == FrameInterval(fps)
      modifies this, capturer
      ensures Current() == Adjusted(old(Current()), options, m)
      ensures interval == FrameInterval(fps)
    {
      quality := AdjustCaptureQuality(quality, m);
      var next := AdjustCaptureFps(fps, m);
      if next != fps {
        fps := next;
        interval := FrameInterval(fps);
      }
    }
  }

  // ------------------------------------------------------------------ properties

  /** The two verdicts exclude each other, so the order of the cases is moot. */
  lemma NeverBoth(o: Options, m: Measured)
    ensures !(Congested(o, m) && Healthy(o, m))
    ensures !(TooMuch(o, m) && HasSlack(o, m))
  {
  }

  function Least(a: int, b: int): int {
    if a < b then a else b
  }

  /** Whatever is measured, the frame rate stays within what the user chose, and
      the quality between 21 (or the user's, if lower) and one above the user's. */
  lemma {:induction false} StaysInBand(o: Options, ms: seq<Measured>)
    requires o.captureFps >= 1
    ensures 1 <= Run(o, ms).fps <= o.captureFps
    ensures Least(o.captureQuality, 21) <= Run(o, ms).quality <= o.captureQuality + 1
    ensures 0 < FrameInterval(Run(o, ms).fps) <= SECOND || o.captureFps > SECOND
  {
    if ms != [] { StaysInBand(o, ms[..|ms| - 1]); }
    IntervalBounds(Run(o, ms).fps);
  }

  lemma IntervalBounds(fps: int)
    requires fps >= 1
    ensures FrameInterval(fps) * fps <= SECOND < (FrameInterval(fps) + 1) * fps
    ensures FrameInterval(fps) <= SECOND
    ensures fps <= SECOND ==> FrameInterval(fps) > 0
  {
  }

  lemma RunConcat(o: Options, ms: seq<Measured>, m: Measured)
    ensures Run(o, ms + [m]) == Adjusted(Run(o, ms), o, m)
  {
    assert (ms + [m])[..|ms + [m]| - 1] == ms;
  }

  function Steps(distance: int, stride: int): int
    requires stride > 0
  {
    if distance <= 0 then 0 else (distance + stride - 1) / stride
  }

  lemma StepsBound(distance: int, stride: int)
    requires stride > 0
    ensures distance > 0 ==> Steps(distance, stride) * stride >= distance > (Steps(distance, stride) - 1) * stride
  {
  }

  /** Starting anywhere, `more` further frames. */
  function From(t: Tuning, o: Options, more: seq<Measured>): Tuning {
    if more == [] then t else Adjusted(From(t, o, more[..|more| - 1]), o, more[|more| - 1])
  }

  lemma {:induction false} RunIsFrom(o: Options, ms: seq<Measured>, more: seq<Measured>)
    ensures Run(o, ms + more) == From(Run(o, ms), o, more)
  {
    if more == [] {
      assert ms + more == ms;
    } else {
      RunIsFrom(o, ms, more[..|more| - 1]);
      assert ms + more == (ms + more[..|more| - 1]) + [more[|more| - 1]];
      RunConcat(o, ms + more[..|more| - 1], more[|more| - 1]);
    }
  }

  lemma {:induction false} Descent(t: Tuning, o: Options, more: seq<Measured>)
    requires forall m :: m in more ==> TooMuch(o, m)
    ensures From(t, o, more).quality
         == if |more| < Steps(t.quality - 25, 5) then t.quality - 5 * |more| else t.quality - 5 * Steps(t.quality - 25, 5)
    ensures t.quality > 25 && |more| >= Steps(t.quality - 25, 5) ==> 21 <= From(t, o, more).quality <= 25
  {
    StepsBound(t.quality - 25, 5);
    if more != [] {
      Descent(t, o, more[..|more| - 1]);
      NeverBoth(o, more[|more| - 1]);
    }
  }

  /** After any run, while the bitrate stays over the limit the quality goes down
      in steps of five until it is at most 25, and then it stays where it is. */
  lemma OverloadSettlesQuality(o: Options, ms: seq<Measured>, more: seq<Measured>)
    requires forall m :: m in more ==> 0 < o.limitKbps < m.bitrate
    ensures var q, after, n := Run(o, ms).quality, Run(o, ms + more).quality, Steps(Run(o, ms).quality - 25, 5);
      && after == (if |more| < n then q - 5 * |more| else q - 5 * n)
      && (q > 25 && |more| >= n ==> 21 <= after <= 25)
  {
    RunIsFrom(o, ms, more);
    Descent(Run(o, ms), o, more);
  }

  lemma {:induction false} Ascent(t: Tuning, o: Options, more: seq<Measured>)
    requires forall m :: m in more ==> HasSlack(o, m)
    ensures From(t, o, more).quality
         == if |more| < Steps(o.captureQuality - t.quality, 2) then t.quality + 2 * |more|
            else t.quality + 2 * Steps(o.captureQuality - t.quality, 2)
    ensures t.quality <= o.captureQuality && |more| >= Steps(o.captureQuality - t.quality, 2) ==>
              o.captureQuality <= From(t, o, more).quality <= o.captureQuality + 1
  {
    StepsBound(o.captureQuality - t.quality, 2);
    if more != [] {
      Ascent(t, o, more[..|more| - 1]);
      NeverBoth(o, more[|more| - 1]);
    }
  }

  /** After any run, while there is slack it goes up in steps of two until it has
      reached the user's, which it may overshoot by one, and then it stays. */
  lemma SlackRestoresQuality(o: Options, ms: seq<Measured>, more: seq<Measured>)
    requires forall m :: m in more ==> 0 < o.limitKbps && m.bitrate < o.limitKbps * 6 / 10
    ensures var q, after, n := Run(o, ms).quality, Run(o, ms + more).quality,
                               Steps(o.captureQuality - Run(o, ms).quality, 2);
      && after == (if |more| < n then q + 2 * |more| else q + 2 * n)
      && (q <= o.captureQuality && |more| >= n ==> o.captureQuality <= after <= o.captureQuality + 1)
  {
    RunIsFrom(o, ms, more);
    Ascent(Run(o, ms), o, more);
  }

  lemma {:induction false} Slowing(t: Tuning, o: Options, more: seq<Measured>)
    requires o.captureFps >= 2 && 1 <= t.fps
    requires forall m :: m in more ==> Congested(o, m)
    ensures From(t, o, more).fps == if |more| < t.fps then t.fps - |more| else 1
  {
    if more != [] { Slowing(t, o, more[..|more| - 1]); }
  }

  /** After any run, sustained congestion reaches one frame per second, sustained
      health the user's rate, each by one per frame sent. */
  lemma CongestionSettlesFps(o: Options, ms: seq<Measured>, more: seq<Measured>)
    requires o.captureFps >= 2
    requires forall m :: m in more ==> 0 < o.limitKbps < m.bitrate || m.loss >= 500 || m.rtt >= 350
    ensures var fps := Run(o, ms).fps; Run(o, ms + more).fps == if |more| < fps then fps - |more| else 1
  {
    StaysInBand(o, ms);
    RunIsFrom(o, ms, more);
    Slowing(Run(o, ms), o, more);
  }

  lemma {:induction false} Quickening(t: Tuning, o: Options, more: seq<Measured>)
    requires o.captureFps >= 2 && 1 <= t.fps <= o.captureFps
    requires forall m :: m in more ==> Healthy(o, m)
    ensures From(t, o, more).fps == Least(t.fps + |more|, o.captureFps)
  {
    if more != [] {
      Quickening(t, o, more[..|more| - 1]);
      NeverBoth(o, more[|more| - 1]);
    }
  }

  lemma HealthRestoresFps(o: Options, ms: seq<Measured>, more: seq<Measured>)
    requires o.captureFps >= 2
    requires forall m :: m in more ==>
               (o.limitKbps <= 0 || m.bitrate < o.limitKbps * 6 / 10) && m.loss <= 100 && m.rtt < 180
    ensures Run(o, ms + more).fps == Least(Run(o, ms).fps + |more|, o.captureFps)
  {
    StaysInBand(o, ms);
    RunIsFrom(o, ms, more);
    Quickening(Run(o, ms), o, more);
  }

  // ------------------------------------------------- tracked and actual quality

  /** No measurement of at least nothing lies below sixty percent of a limit of
      one kilobit, taken in whole kilobits. */
  predicate CanHaveSlack(o: Options) {
    o.limitKbps >= 2
  }

  lemma SlackNeedsTwo(o: Options, m: Measured)
    requires HasSlack(o, m)
    ensures CanHaveSlack(o)
  {
  }

  /** The options for which the clamp of the capturer never interferes. */
  predicate NeverClamped(o: Options) {
    && o.captureQuality >= 1
    && (o.limitKbps <= 0 || o.captureQuality <= 89 || (!CanHaveSlack(o) && o.captureQuality <= 95))
  }

  lemma {:induction false} Tracks(o: Options, ms: seq<Measured>)
    requires NeverClamped(o)
    ensures Run(o, ms).actual == Run(o, ms).quality
    ensures Least(o.captureQuality, 21) <= Run(o, ms).quality <= o.captureQuality + 1
    ensures o.captureQuality <= 25 || o.limitKbps <= 0 ==> Run(o, ms).quality == o.captureQuality
    ensures !CanHaveSlack(o) ==> Run(o, ms).quality <= o.captureQuality
  {
    if ms != [] {
      Tracks(o, ms[..|ms| - 1]);
      if HasSlack(o, ms[|ms| - 1]) { SlackNeedsTwo(o, ms[|ms| - 1]); }
    }
  }

  function Overloaded(o: Options): Measured
    requires o.limitKbps > 0
  {
    Measured(o.limitKbps + 1, 0, 0)
  }

  const SLACK := Measured(0, 0, 0)

  /** Above 95, the first overloaded frame already asks for more than the capturer
      will take. */
  lemma DriftsFrom96(o: Options)
    requires o.captureQuality >= 96 && o.limitKbps > 0
    ensures Run(o, [Overloaded(o)]).quality == o.captureQuality - 5
    ensures Run(o, [Overloaded(o)]).actual == 90
  {
    var none: seq<Measured> := [];
    assert none + [Overloaded(o)] == [Overloaded(o)];
    RunConcat(o, none, Overloaded(o));
  }

  /** From 90 on, one overloaded frame and three with slack leave the loop with
      a quality the capturer does not have. */
  lemma DriftsFrom90(o: Options)
    requires o.captureQuality >= 90 && CanHaveSlack(o)
    ensures var ms := [Overloaded(o), SLACK, SLACK, SLACK];
      Run(o, ms).quality == o.captureQuality + 1 && Run(o, ms).actual == 90
  {
    var none: seq<Measured> := [];
    var first := Overloaded(o);
    assert none + [first] == [first];
    assert [first] + [SLACK] == [first, SLACK];
    assert [first, SLACK] + [SLACK] == [first, SLACK, SLACK];
    assert [first, SLACK, SLACK] + [SLACK] == [first, SLACK, SLACK, SLACK];
    RunConcat(o, none, first);
    RunConcat(o, [first], SLACK);
    RunConcat(o, [first, SLACK], SLACK);
    RunConcat(o, [first, SLACK, SLACK], SLACK);
  }

  /** For any one choice of options: the capturer always uses the quality the loop
      believes in if and only if that is positive and either there is no limit, or
      it is at most 89, or the limit is one kilobit and it is at most 95. */
  lemma ActualIsTrackedIff(o: Options)
    ensures (forall ms :: Run(o, ms).actual == Run(o, ms).quality)
       <==> o.captureQuality >= 1 && (o.limitKbps <= 0 || o.captureQuality <= 89 || (o.limitKbps == 1 && o.captureQuality <= 95))
  {
    if NeverClamped(o) {
      forall ms ensures Run(o, ms).actual == Run(o, ms).quality { Tracks(o, ms); }
    } else if o.captureQuality <= 0 {
      assert Run(o, []).actual != Run(o, []).quality;
    } else if CanHaveSlack(o) {
      DriftsFrom90(o);
    } else {
      DriftsFrom96(o);
    }
  }
}
