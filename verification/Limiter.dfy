/** The token bucket in front of a connection's writes.  Token counts are real
    numbers here; clocks and delays are whole nanoseconds, so the truncation of
    a delay is part of the model. */
module Limiter {
  const BURST_SECONDS := 2
  const NANOS := 1_000_000_000

  datatype Bucket = Bucket(tokens: real, lastFill: int)

  /** One attempt's outcome; a delay of zero lets the bytes through. */
  datatype Reservation = Reservation(bucket: Bucket, delay: int)

  /** Bytes per second: kilobits per second, times 1000, over 8. */
  function Rate(kbps: int): (r: int)
    ensures r == 125 * kbps
  {
    kbps * 1000 / 8
  }

  function Burst(kbps: int): real {
    Rate(kbps) as real * BURST_SECONDS as real
  }

  /** What a nanosecond adds. */
  function PerNano(kbps: int): (u: real)
    ensures kbps > 0 ==> u > 0.0
  {
    Rate(kbps) as real / NANOS as real
  }

  /** What `ns` nanoseconds add. */
  function Worth(kbps: int, ns: real): real {
    ns * PerNano(kbps)
  }

  function Min(a: real, b: real): real {
    if a > b then b else a
  }

  predicate Valid(b: Bucket, kbps: int) {
    kbps > 0 && 0.0 <= b.tokens <= Burst(kbps)
  }

  function Full(kbps: int, now: int): Bucket {
    Bucket(Burst(kbps), now)
  }

  /** The level an attempt at `now` finds. */
  function Level(b: Bucket, kbps: int, now: int): real {
    Min(Burst(kbps), b.tokens + (now - b.lastFill) as real / NANOS as real * Rate(kbps) as real)
  }

  function DelayFor(missing: real, kbps: int): int
    requires kbps > 0
  {
    (missing / Rate(kbps) as real * NANOS as real).Floor
  }

  /** An unsuccessful attempt empties the bucket. */
  function Reserve(b: Bucket, kbps: int, needed: real, now: int): Reservation
    requires kbps > 0
  {
    var level := Level(b, kbps, now);
    if level >= needed then Reservation(Bucket(level - needed, now), 0)
    else Reservation(Bucket(0.0, now), DelayFor(needed - level, kbps))
  }

  /** Up to `times` attempts to get `needed` through; afterwards the caller has
      given up.  The number of attempts made comes with the result. */
  datatype Waiting = Waiting(bucket: Bucket, admitted: bool, attempts: nat)

  function Retry(b: Bucket, kbps: int, needed: real, times: seq<int>): Waiting
    requires kbps > 0
    decreases |times|
  {
    if times == [] then Waiting(b, false, 0)
    else
      var r := Reserve(b, kbps, needed, times[0]);
      if r.delay <= 0 then Waiting(r.bucket, true, 1)
      else
        var rest := Retry(r.bucket, kbps, needed, times[1..]);
        rest.(attempts := rest.attempts + 1)
  }

  class BandwidthLimiter {
    const limitKbps: int
    var tokens: real
    var lastFill: int

    /** Two seconds' worth: 250 bytes for each kilobit per second. */
    constructor (limitKbps: int, now: int)
      ensures this.limitKbps == limitKbps
      ensures limitKbps > 0 ==> tokens == (250 * limitKbps) as real && lastFill == now
      ensures limitKbps > 0 ==> Current() == Full(limitKbps, now)
    {
      this.limitKbps := limitKbps;
      tokens := (limitKbps * 1000 / 8 * BURST_SECONDS) as real;
      lastFill := now;
    }

    function Current(): Bucket
      reads this
    {
      Bucket(tokens, lastFill)
    }

    method ReserveDelay(needed: real, now: int) returns (delay: int)
      requires limitKbps > 0
      modifies this
      ensures Reservation(Current(), delay) == Reserve(old(Current()), limitKbps, needed, now)
    {
      var rate := (limitKbps * 1000 / 8) as real;
      var burst := rate * BURST_SECONDS as real;
      tokens := tokens + (now - lastFill) as real / NANOS as real * rate;
      if tokens > burst {
        tokens := burst;
      }
      lastFill := now;
      if tokens >= needed {
        tokens := tokens - needed;
        return 0;
      }
      var missing := needed - tokens;
      tokens := 0.0;
      return (missing / rate * NANOS as real).Floor;
    }

    /** `times` are the clock readings at the first attempt and after each
        timer; the caller's context ends when they run out. */
    method Wait(bytes: int, times: seq<int>) returns (ok: bool)
      modifies this
      ensures limitKbps <= 0 || bytes <= 0 ==> ok && Current() == old(Current())
      ensures limitKbps > 0 && bytes > 0 ==>
                var w := Retry(old(Current()), limitKbps, bytes as real, times);
                ok == w.admitted && Current() == w.bucket
    {
      if limitKbps <= 0 || bytes <= 0 {
        return true;
      }
      var k := 0;
      while k < |times|
        invariant k <= |times|
        invariant Retry(old(Current()), limitKbps, bytes as real, times).admitted
               == Retry(Current(), limitKbps, bytes as real, times[k..]).admitted
        invariant Retry(old(Current()), limitKbps, bytes as real, times).bucket
               == Retry(Current(), limitKbps, bytes as real, times[k..]).bucket
      {
        var delay := ReserveDelay(bytes as real, times[k]);
        if delay <= 0 {
          return true;
        }
        assert times[k..][1..] == times[k + 1..];
        k := k + 1;
      }
      return false;
    }
  }

  // ------------------------------------------------------------------ one attempt

  /** A delay in nanoseconds, before truncation. */
  function ExactDelay(missing: real, kbps: int): (q: real)
    requires kbps > 0
    ensures DelayFor(missing, kbps) == q.Floor
  {
    missing / Rate(kbps) as real * NANOS as real
  }

  // All that is nonlinear about the bucket is in the next five facts.

  lemma ExactDelayWorth(kbps: int, missing: real)
    requires kbps > 0
    ensures Worth(kbps, ExactDelay(missing, kbps)) == missing
  {
  }

  lemma LevelWorth(b: Bucket, kbps: int, now: int)
    ensures Level(b, kbps, now) == Min(Burst(kbps), b.tokens + Worth(kbps, (now - b.lastFill) as real))
  {
    assert (now - b.lastFill) as real / NANOS as real * Rate(kbps) as real == (now - b.lastFill) as real * PerNano(kbps);
  }

  lemma WorthAdds(kbps: int, x: real, y: real)
    ensures Worth(kbps, x) + Worth(kbps, y) == Worth(kbps, x + y)
    ensures Worth(kbps, 1.0) == PerNano(kbps)
    ensures Worth(kbps, 0.0) == 0.0
  {
  }

  lemma WorthGrows(kbps: int, x: real, y: real)
    requires kbps > 0 && x < y
    ensures Worth(kbps, x) < Worth(kbps, y)
  {
    assert (y - x) * PerNano(kbps) > 0.0;
    assert (y - x) * PerNano(kbps) == y * PerNano(kbps) - x * PerNano(kbps);
  }

  lemma WorthOrder(kbps: int, x: real, y: real)
    requires kbps > 0
    ensures x < y <==> Worth(kbps, x) < Worth(kbps, y)
    ensures x < y + 1.0 <==> Worth(kbps, x) < Worth(kbps, y) + PerNano(kbps)
  {
    WorthAdds(kbps, y, 1.0);
    if x < y { WorthGrows(kbps, x, y); } else if y < x { WorthGrows(kbps, y, x); }
    if x < y + 1.0 { WorthGrows(kbps, x, y + 1.0); } else if y + 1.0 < x { WorthGrows(kbps, y + 1.0, x); }
  }

  // ------------------------------------------------------------------ truncation

  lemma Truncation(missing: real, kbps: int)
    requires kbps > 0
    ensures var worth := Worth(kbps, DelayFor(missing, kbps) as real); worth <= missing < worth + PerNano(kbps)
  {
    var d, q := DelayFor(missing, kbps) as real, ExactDelay(missing, kbps);
    ExactDelayWorth(kbps, missing);
    assert d <= q < d + 1.0;
    WorthOrder(kbps, q, d);
  }

  lemma NoDelayIff(missing: real, kbps: int)
    requires kbps > 0
    ensures DelayFor(missing, kbps) <= 0 <==> missing < PerNano(kbps)
  {
    ExactDelayWorth(kbps, missing);
    WorthAdds(kbps, 0.0, 0.0);
    WorthOrder(kbps, ExactDelay(missing, kbps), 0.0);
  }

  /** An attempt gets through exactly when less than one nanosecond's worth of
      tokens is missing. */
  lemma AdmittedIff(b: Bucket, kbps: int, needed: real, now: int)
    requires kbps > 0
    ensures Reserve(b, kbps, needed, now).delay <= 0 <==> needed < Level(b, kbps, now) + PerNano(kbps)
  {
    NoDelayIff(needed - Level(b, kbps, now), kbps);
  }

  /** Tokens stay within [0, burst]. */
  lemma StaysValid(b: Bucket, kbps: int, needed: real, now: int)
    requires Valid(b, kbps) && needed >= 0.0 && now >= b.lastFill
    ensures Valid(Reserve(b, kbps, needed, now).bucket, kbps)
    ensures 0.0 <= Level(b, kbps, now) <= Burst(kbps)
  {
    LevelWorth(b, kbps, now);
    WorthAdds(kbps, 0.0, 0.0);
    WorthOrder(kbps, (now - b.lastFill) as real, 0.0);
  }

  // ---------------------------------------------------------------- window bound

  datatype Attempt = Attempt(needed: real, at: int)

  predicate Clocked(tries: seq<Attempt>, start: int) {
    && (forall i :: 0 <= i < |tries| ==> tries[i].needed >= 0.0 && tries[i].at >= start)
    && (forall i, j :: 0 <= i < j < |tries| ==> tries[i].at <= tries[j].at)
  }

  function RunAll(b: Bucket, kbps: int, tries: seq<Attempt>): Bucket
    requires kbps > 0
  {
    if tries == [] then b
    else
      var before := RunAll(b, kbps, tries[..|tries| - 1]);
      Reserve(before, kbps, tries[|tries| - 1].needed, tries[|tries| - 1].at).bucket
  }

  predicate LetThrough(b: Bucket, kbps: int, tries: seq<Attempt>, i: nat)
    requires kbps > 0 && i < |tries|
  {
    Reserve(RunAll(b, kbps, tries[..i]), kbps, tries[i].needed, tries[i].at).delay <= 0
  }

  /** Bytes let through, and how many attempts that were. */
  function Passed(b: Bucket, kbps: int, tries: seq<Attempt>): real
    requires kbps > 0
  {
    if tries == [] then 0.0
    else
      Passed(b, kbps, tries[..|tries| - 1])
      + if LetThrough(b, kbps, tries, |tries| - 1) then tries[|tries| - 1].needed else 0.0
  }

  function Admissions(b: Bucket, kbps: int, tries: seq<Attempt>): nat
    requires kbps > 0
  {
    if tries == [] then 0
    else Admissions(b, kbps, tries[..|tries| - 1]) + if LetThrough(b, kbps, tries, |tries| - 1) then 1 else 0
  }

  /** What an attempt spends beyond the refill, it had in the bucket. */
  lemma AttemptSpends(b: Bucket, kbps: int, needed: real, now: int)
    requires Valid(b, kbps) && needed >= 0.0 && now >= b.lastFill
    ensures var r := Reserve(b, kbps, needed, now);
      && r.bucket.lastFill == now
      && r.bucket.tokens + (if r.delay <= 0 then needed else 0.0)
         <= Level(b, kbps, now) + Refill(kbps, if r.delay <= 0 then 1 else 0)
  {
    AdmittedIff(b, kbps, needed, now);
    StaysValid(b, kbps, needed, now);
    WorthAdds(kbps, 0.0, 0.0);
  }

  lemma RefillBound(b: Bucket, kbps: int, now: int)
    requires kbps > 0
    ensures Level(b, kbps, now) <= b.tokens + Refill(kbps, now - b.lastFill)
    ensures Level(b, kbps, now) <= Burst(kbps)
  {
    LevelWorth(b, kbps, now);
  }

  function LastAt(tries: seq<Attempt>): int
    requires tries != []
  {
    tries[|tries| - 1].at
  }

  /** What refills between the first and the last attempt, and what truncated
      delays of `n` admissions give away. */
  function Refill(kbps: int, ns: int): real {
    Worth(kbps, ns as real)
  }

  lemma RefillAdds(kbps: int, x: int, y: int)
    ensures Refill(kbps, x) + Refill(kbps, y) == Refill(kbps, x + y)
  {
    WorthAdds(kbps, x as real, y as real);
  }

  /** The balance after one more attempt, given the balance before it. */
  lemma Balance(before: real, tokens: real, limit: real, level: real, refill: real, spent: real, left: real, bonus: real)
    requires before + tokens <= limit && level <= tokens + refill && left + spent <= level + bonus
    ensures before + spent + left <= limit + refill + bonus
  {
  }

  lemma {:induction false} Spending(b: Bucket, kbps: int, tries: seq<Attempt>)
    requires Valid(b, kbps) && tries != [] && Clocked(tries, b.lastFill)
    ensures Valid(RunAll(b, kbps, tries), kbps) && RunAll(b, kbps, tries).lastFill == LastAt(tries)
    ensures Passed(b, kbps, tries) + RunAll(b, kbps, tries).tokens
         <= Burst(kbps) + Refill(kbps, LastAt(tries) - tries[0].at) + Refill(kbps, Admissions(b, kbps, tries))
  {
    var prefix, last := tries[..|tries| - 1], tries[|tries| - 1];
    var before := RunAll(b, kbps, prefix);
    var r := Reserve(before, kbps, last.needed, last.at);
    var spent := if r.delay <= 0 then last.needed else 0.0;
    var more := if r.delay <= 0 then 1 else 0;
    if prefix == [] {
      StaysValid(b, kbps, last.needed, last.at);
      AttemptSpends(b, kbps, last.needed, last.at);
      FirstAttempt(b, kbps, tries);
    } else {
      Spending(b, kbps, prefix);
      assert before.lastFill == LastAt(prefix) <= last.at;
      StaysValid(before, kbps, last.needed, last.at);
      AttemptSpends(before, kbps, last.needed, last.at);
      RefillBound(before, kbps, last.at);
      Balance(Passed(b, kbps, prefix), before.tokens,
              Burst(kbps) + Refill(kbps, LastAt(prefix) - tries[0].at) + Refill(kbps, Admissions(b, kbps, prefix)),
              Level(before, kbps, last.at), Refill(kbps, last.at - LastAt(prefix)), spent, r.bucket.tokens,
              Refill(kbps, more));
      RefillAdds(kbps, LastAt(prefix) - tries[0].at, last.at - LastAt(prefix));
      RefillAdds(kbps, Admissions(b, kbps, prefix), more);
    }
  }

  lemma FirstAttempt(b: Bucket, kbps: int, tries: seq<Attempt>)
    requires Valid(b, kbps) && |tries| == 1
    ensures RunAll(b, kbps, tries) == Reserve(b, kbps, tries[0].needed, tries[0].at).bucket
    ensures Passed(b, kbps, tries) == (if LetThrough(b, kbps, tries, 0) then tries[0].needed else 0.0)
    ensures Admissions(b, kbps, tries) == if LetThrough(b, kbps, tries, 0) then 1 else 0
    ensures LetThrough(b, kbps, tries, 0) <==> Reserve(b, kbps, tries[0].needed, tries[0].at).delay <= 0
    ensures Level(b, kbps, tries[0].at) <= Burst(kbps)
  {
    assert tries[..0] == [];
  }

  /** Window bound: whatever happened before, the bytes let through in a window
      are at most the burst, plus the rate times the window's length, plus one
      nanosecond's worth for each admission (delays that truncate to zero). */
  lemma WindowBound(b: Bucket, kbps: int, tries: seq<Attempt>)
    requires Valid(b, kbps) && tries != [] && Clocked(tries, b.lastFill)
    ensures Passed(b, kbps, tries)
         <= Burst(kbps) + Refill(kbps, LastAt(tries) - tries[0].at) + Refill(kbps, Admissions(b, kbps, tries))
  {
    Spending(b, kbps, tries);
  }

  // --------------------------------------------------------------- oversized data

  /** Bytes can be admitted by some bucket in range if and only if they exceed
      the burst by less than a nanosecond's worth; a full bucket then admits. */
  lemma EverAdmittedIff(kbps: int, needed: real, now: int)
    requires kbps > 0
    ensures needed < Burst(kbps) + PerNano(kbps) <==> Reserve(Full(kbps, now), kbps, needed, now).delay <= 0
    ensures needed >= Burst(kbps) + PerNano(kbps) ==>
              forall b: Bucket, at: int :: Valid(b, kbps) ==> Reserve(b, kbps, needed, at).delay > 0
  {
    AdmittedIff(Full(kbps, now), kbps, needed, now);
    forall b: Bucket, at: int | Valid(b, kbps) && needed >= Burst(kbps) + PerNano(kbps)
      ensures Reserve(b, kbps, needed, at).delay > 0
    {
      AdmittedIff(b, kbps, needed, at);
    }
  }

  /** Up to 10^9 bytes per second no message longer than the burst ever gets
      through, whatever the clock does: the wait ends only with its context. */
  lemma {:induction false} OversizedNeverAdmitted(b: Bucket, kbps: int, bytes: int, times: seq<int>)
    requires Valid(b, kbps) && Rate(kbps) <= NANOS && bytes as real > Burst(kbps)
    ensures !Retry(b, kbps, bytes as real, times).admitted
    ensures Retry(b, kbps, bytes as real, times).attempts == |times|
    decreases |times|
  {
    if times != [] {
      assert bytes >= 2 * Rate(kbps) + 1;
      EverAdmittedIff(kbps, bytes as real, times[0]);
      var r := Reserve(b, kbps, bytes as real, times[0]);
      assert r.bucket.tokens == 0.0;
      OversizedNeverAdmitted(r.bucket, kbps, bytes, times[1..]);
    }
  }

  // -------------------------------------------------------------- the retry cycle

  /** After an unsuccessful attempt at level `t`, a wake-up `late` nanoseconds
      after its delay finds min(burst, N - t - r + late), where r, less than a
      nanosecond's worth, is what truncation took off the delay. */
  lemma RetryRecurrence(b: Bucket, kbps: int, needed: real, now: int, late: nat) returns (r: real)
    requires kbps > 0 && Reserve(b, kbps, needed, now).delay > 0
    ensures 0.0 <= r < PerNano(kbps)
    ensures var t := Level(b, kbps, now);
      var first := Reserve(b, kbps, needed, now);
      && Level(first.bucket, kbps, now + first.delay + late)
         == Min(Burst(kbps), needed - t - r + Worth(kbps, late as real))
      && r == needed - t - Worth(kbps, first.delay as real)
  {
    var missing := needed - Level(b, kbps, now);
    var d := Reserve(b, kbps, needed, now).delay;
    Truncation(missing, kbps);
    r := missing - Worth(kbps, d as real);
    LevelWorth(Bucket(0.0, now), kbps, now + d + late);
    WorthAdds(kbps, d as real, late as real);
    assert (d + late) as real == d as real + late as real;
  }

  /** So the second attempt succeeds exactly when the bytes fit the burst and
      the wake-up was late by what the bucket held at first, both up to a
      nanosecond's worth. */
  lemma RetryAdmittedIff(b: Bucket, kbps: int, needed: real, now: int, late: nat) returns (r: real)
    requires kbps > 0 && Reserve(b, kbps, needed, now).delay > 0
    ensures 0.0 <= r < PerNano(kbps)
    ensures r == needed - Level(b, kbps, now) - Worth(kbps, Reserve(b, kbps, needed, now).delay as real)
    ensures var first := Reserve(b, kbps, needed, now);
      Reserve(first.bucket, kbps, needed, now + first.delay + late).delay <= 0 <==>
        needed < Burst(kbps) + PerNano(kbps)
        && Level(b, kbps, now) < Worth(kbps, late as real) + PerNano(kbps) - r
  {
    r := RetryRecurrence(b, kbps, needed, now, late);
    var first := Reserve(b, kbps, needed, now);
    AdmittedIff(first.bucket, kbps, needed, now + first.delay + late);
  }

  /** Nanoseconds it takes to fill `needed` bytes, rounded down. */
  function FillTime(needed: real, kbps: int): int
    requires kbps > 0
  {
    DelayFor(needed, kbps)
  }

  /** The clock readings of a caller whose timers all fire on time, given the
      first delay: they alternate between two delays. */
  function OnTime(now: int, delay: int, total: int, n: nat): seq<int>
    decreases n
  {
    if n == 0 then [] else [now + delay] + OnTime(now + delay, total - delay, total, n - 1)
  }

  lemma FloorShift(x: real, k: int)
    ensures (x - k as real).Floor == x.Floor - k
  {
  }

  lemma ExactDelayLess(kbps: int, needed: real, d: real)
    requires kbps > 0
    ensures ExactDelay(needed - Worth(kbps, d), kbps) == ExactDelay(needed, kbps) - d
  {
    var p, q := ExactDelay(needed - Worth(kbps, d), kbps), ExactDelay(needed, kbps) - d;
    ExactDelayWorth(kbps, needed - Worth(kbps, d));
    ExactDelayWorth(kbps, needed);
    WorthAdds(kbps, q, d);
    WorthOrder(kbps, p, q);
    WorthOrder(kbps, q, p);
  }

  /** The delay of an attempt that finds exactly `d` nanoseconds' worth. */
  lemma DelayAt(kbps: int, needed: real, d: int, now: int)
    requires kbps > 0 && 0 < d < FillTime(needed, kbps) && 0.0 < needed <= Burst(kbps)
    ensures Reserve(Bucket(0.0, now), kbps, needed, now + d).delay == FillTime(needed, kbps) - d > 0
    ensures Reserve(Bucket(0.0, now), kbps, needed, now + d).bucket == Bucket(0.0, now + d)
  {
    Truncation(needed, kbps);
    WorthOrder(kbps, d as real, FillTime(needed, kbps) as real);
    LevelWorth(Bucket(0.0, now), kbps, now + d);
    ExactDelayLess(kbps, needed, d as real);
    FloorShift(ExactDelay(needed, kbps), d);
  }

  /** With timers that fire exactly on time a message within the burst is never
      admitted: each attempt finds what the last one waited for, which is what
      the one before had found, and the delays alternate for ever. */
  lemma {:induction false} OnTimeNeverAdmitted(kbps: int, needed: real, now: int, d: int, n: nat)
    requires kbps > 0 && 0.0 < needed <= Burst(kbps) && 0 < d < FillTime(needed, kbps)
    ensures !Retry(Bucket(0.0, now), kbps, needed, OnTime(now, d, FillTime(needed, kbps), n)).admitted
    decreases n
  {
    if n > 0 {
      var total := FillTime(needed, kbps);
      DelayAt(kbps, needed, d, now);
      OnTimeNeverAdmitted(kbps, needed, now + d, total - d, n - 1);
      assert OnTime(now, d, total, n)[1..] == OnTime(now + d, total - d, total, n - 1);
    }
  }

  lemma DelayMonotone(x: real, y: real, kbps: int)
    requires kbps > 0 && x <= y
    ensures DelayFor(x, kbps) <= DelayFor(y, kbps)
    ensures y - x >= PerNano(kbps) ==> DelayFor(x, kbps) < DelayFor(y, kbps)
  {
    ExactDelayWorth(kbps, x);
    ExactDelayWorth(kbps, y);
    WorthOrder(kbps, ExactDelay(y, kbps), ExactDelay(x, kbps));
  }

  /** After a full wait for all the bytes the next attempt succeeds. */
  lemma FullWaitAdmits(kbps: int, needed: real, now: int)
    requires kbps > 0 && 0.0 < needed <= Burst(kbps)
    ensures Reserve(Bucket(0.0, now), kbps, needed, now + FillTime(needed, kbps)).delay <= 0
  {
    Truncation(needed, kbps);
    var d := FillTime(needed, kbps);
    LevelWorth(Bucket(0.0, now), kbps, now + d);
    AdmittedIff(Bucket(0.0, now), kbps, needed, now + d);
  }

  lemma RetryTail(b: Bucket, kbps: int, needed: real, now: int, later: seq<int>)
    requires kbps > 0 && Reserve(b, kbps, needed, now).delay > 0
    ensures Retry(b, kbps, needed, [now] + later).admitted == Retry(Bucket(0.0, now), kbps, needed, later).admitted
  {
    assert ([now] + later)[1..] == later;
  }

  lemma OnTimeAdmitted(kbps: int, needed: real, now: int, n: nat)
    requires kbps > 0 && 0.0 < needed <= Burst(kbps) && n >= 1
    ensures Retry(Bucket(0.0, now), kbps, needed, OnTime(now, FillTime(needed, kbps), FillTime(needed, kbps), n)).admitted
  {
    FullWaitAdmits(kbps, needed, now);
    assert OnTime(now, FillTime(needed, kbps), FillTime(needed, kbps), n)[0] == now + FillTime(needed, kbps);
  }

  /** What filling `needed` bytes leaves over when it is cut to whole
      nanoseconds: less than one nanosecond's worth. */
  function Leftover(needed: real, kbps: int): real
    requires kbps > 0
  {
    needed - Worth(kbps, FillTime(needed, kbps) as real)
  }

  lemma FullDelayIff(b: Bucket, kbps: int, needed: real, now: int)
    requires Valid(b, kbps) && now >= b.lastFill && needed >= 0.0
    requires Reserve(b, kbps, needed, now).delay > 0
    ensures Reserve(b, kbps, needed, now).delay == FillTime(needed, kbps) <==> Level(b, kbps, now) <= Leftover(needed, kbps)
    ensures 0.0 <= Leftover(needed, kbps) < PerNano(kbps)
  {
    var missing := needed - Level(b, kbps, now);
    FirstDelay(b, kbps, needed, now);
    Truncation(needed, kbps);
    ExactDelayWorth(kbps, missing);
    WorthOrder(kbps, ExactDelay(missing, kbps), FillTime(needed, kbps) as real);
  }

  /** Livelock: a message within the burst whose first attempt is unsuccessful
      is admitted by timers that fire on time if and only if that attempt found
      no more in the bucket than the cut-off remainder of the message's own
      filling time, less than a nanosecond's worth.  Whenever it found more, it
      threw that away and the wait never ends. */
  lemma OnTimeAdmittedIff(b: Bucket, kbps: int, needed: real, now: int, n: nat)
    requires Valid(b, kbps) && now >= b.lastFill && 0.0 < needed <= Burst(kbps) && n >= 1
    requires Reserve(b, kbps, needed, now).delay > 0
    ensures var times := [now] + OnTime(now, Reserve(b, kbps, needed, now).delay, FillTime(needed, kbps), n);
      Retry(b, kbps, needed, times).admitted <==> Level(b, kbps, now) <= Leftover(needed, kbps)
    ensures 0.0 <= Leftover(needed, kbps) < PerNano(kbps)
  {
    var d, total := Reserve(b, kbps, needed, now).delay, FillTime(needed, kbps);
    FirstDelay(b, kbps, needed, now);
    FullDelayIff(b, kbps, needed, now);
    RetryTail(b, kbps, needed, now, OnTime(now, d, total, n));
    if d == total {
      OnTimeAdmitted(kbps, needed, now, n);
    } else {
      OnTimeNeverAdmitted(kbps, needed, now, d, n);
    }
  }

  lemma FirstDelay(b: Bucket, kbps: int, needed: real, now: int)
    requires Valid(b, kbps) && now >= b.lastFill && needed >= 0.0
    requires Reserve(b, kbps, needed, now).delay > 0
    ensures Reserve(b, kbps, needed, now).delay <= FillTime(needed, kbps)
    ensures Level(b, kbps, now) >= PerNano(kbps) ==> Reserve(b, kbps, needed, now).delay < FillTime(needed, kbps)
  {
    StaysValid(b, kbps, needed, now);
    DelayMonotone(needed - Level(b, kbps, now), needed, kbps);
  }
}
