/** The temporary six-digit code that gates session requests to a device. */
module AuthCode {
  import opened Protocol

  const DEFAULT_TTL := 10 * MINUTE
  const MAX_TTL := 30 * MINUTE

  predicate IsDigit(ch: char) {
    '0' <= ch <= '9'
  }

  predicate IsSixDigits(code: string) {
    |code| == 6 && forall i :: 0 <= i < 6 ==> IsDigit(code[i])
  }

  method IsSixDigitCode(code: string) returns (ok: bool)
    ensures ok == IsSixDigits(code)
  {
    if |code| != 6 {
      return false;
    }
    for i := 0 to |code|
      invariant forall j :: 0 <= j < i ==> IsDigit(code[j])
    {
      if code[i] < '0' || code[i] > '9' {
        return false;
      }
    }
    return true;
  }

  /** The lifetime granted to a code; total on every 64-bit request.  A request of
      nothing or less means ten minutes, one for too long means thirty. */
  function CodeTtl(ttlMillis: int): (ttl: int)
    ensures 0 < ttl <= 1_800_000 * MILLISECOND
    ensures 0 < ttlMillis <= 1_800_000 ==> ttl == ttlMillis * MILLISECOND
    ensures MillisToDuration(ttlMillis) <= 0 ==> ttl == 600_000 * MILLISECOND
    ensures 0 < MillisToDuration(ttlMillis) <= 1_800_000 * MILLISECOND ==> ttl == MillisToDuration(ttlMillis)
    ensures MillisToDuration(ttlMillis) >= 1_800_000 * MILLISECOND ==> ttl == 1_800_000 * MILLISECOND
  {
    var asked := MillisToDuration(ttlMillis);
    if asked <= 0 then DEFAULT_TTL else if asked > MAX_TTL then MAX_TTL else asked
  }

  // ---------------------------------------------------------------- the slot

  datatype Slot = Slot(code: string, expiry: int)

  const EMPTY := Slot("", 0)

  datatype Verdict = NoCodeSet | Matched | Expired | Wrong {
    predicate Passes() { NoCodeSet? || Matched? }
  }

  function Publish(code: string, ttlMillis: int, now: int): Slot {
    Slot(code, now + CodeTtl(ttlMillis))
  }

  function Judge(slot: Slot, code: string, now: int): Verdict {
    if slot.code == "" then NoCodeSet
    else if now > slot.expiry then Expired
    else if code != slot.code then Wrong
    else Matched
  }

  /** A code is spent by its first match and dropped once found expired. */
  function AfterJudge(slot: Slot, code: string, now: int): Slot {
    match Judge(slot, code, now)
    case NoCodeSet => slot
    case Wrong => slot
    case Expired => EMPTY
    case Matched => EMPTY
  }

  // ------------------------------------------------------------- whole runs

  datatype Op =
    | PublishOp(code: string, ttlMillis: int, at: int)
    | ValidateOp(code: string, at: int)

  /** The publish handler refuses anything but six digits. */
  predicate Publishes(op: Op) {
    op.PublishOp? && IsSixDigits(op.code)
  }

  function Apply(slot: Slot, op: Op): Slot {
    match op
    case PublishOp(code, ttl, at) => if IsSixDigits(code) then Publish(code, ttl, at) else slot
    case ValidateOp(code, at) => AfterJudge(slot, code, at)
  }

  function Run(ops: seq<Op>): Slot {
    if ops == [] then EMPTY else Apply(Run(ops[..|ops| - 1]), ops[|ops| - 1])
  }

  /** Attempt `i` of the run is let through because it gave the stored code. */
  predicate MatchesAt(ops: seq<Op>, i: nat)
    requires i < |ops|
  {
    ops[i].ValidateOp? && Judge(Run(ops[..i]), ops[i].code, ops[i].at) == Matched
  }

  /** The number of positions before `n` that publish, and that match. */
  function Published(ops: seq<Op>, n: nat): nat
    requires n <= |ops|
  {
    if n == 0 then 0 else Published(ops, n - 1) + if Publishes(ops[n - 1]) then 1 else 0
  }

  function Matches(ops: seq<Op>, n: nat): nat
    requires n <= |ops|
  {
    if n == 0 then 0 else Matches(ops, n - 1) + if MatchesAt(ops, n - 1) then 1 else 0
  }

  lemma RunStep(ops: seq<Op>, n: nat)
    requires n < |ops|
    ensures Run(ops[..n + 1]) == Apply(Run(ops[..n]), ops[n])
  {
    assert ops[..n + 1][..n] == ops[..n];
  }

  /** Publish number `j` is the one the slot still holds at `n`. */
  ghost predicate HeldFrom(ops: seq<Op>, j: int, n: nat)
    requires n <= |ops|
  {
    && 0 <= j < n && Publishes(ops[j])
    && Run(ops[..n]) == Publish(ops[j].code, ops[j].ttlMillis, ops[j].at)
    && (forall k :: j < k < n ==> !Publishes(ops[k]) && !MatchesAt(ops, k))
  }

  /** In every run the slot is empty or holds the code of one earlier publish
      that nothing has replaced or spent since. */
  lemma {:induction false} SlotProvenance(ops: seq<Op>, n: nat) returns (j: int)
    requires n <= |ops|
    ensures Run(ops[..n]) == EMPTY || HeldFrom(ops, j, n)
  {
    j := -1;
    if n > 0 {
      RunStep(ops, n - 1);
      j := SlotProvenance(ops, n - 1);
      if Publishes(ops[n - 1]) { j := n - 1; }
    }
  }

  /** Shape of the stored code at any moment: empty, or six digits that expire
      at most thirty minutes after some publish in the past of the run. */
  lemma SlotShape(ops: seq<Op>)
    ensures var slot := Run(ops);
      slot == EMPTY ||
      (IsSixDigits(slot.code) &&
       exists j :: 0 <= j < |ops| && Publishes(ops[j]) && slot.code == ops[j].code
                && ops[j].at < slot.expiry <= ops[j].at + MAX_TTL)
  {
    var j := SlotProvenance(ops, |ops|);
    assert ops[..|ops|] == ops;
  }

  /** A match always answers an earlier publish of the same code, in time, with
      no other publish or match in between. */
  lemma MatchAnswersPublish(ops: seq<Op>, i: nat) returns (j: nat)
    requires i < |ops| && MatchesAt(ops, i)
    ensures j < i && Publishes(ops[j]) && ops[j].code == ops[i].code
    ensures ops[i].at <= ops[j].at + CodeTtl(ops[j].ttlMillis)
    ensures forall k :: j < k < i ==> !Publishes(ops[k]) && !MatchesAt(ops, k)
  {
    var j' := SlotProvenance(ops, i);
    j := j';
  }

  /** Over every stretch of a run, matches outnumber publishes at most by the
      one code already stored when the stretch begins. */
  lemma {:induction false} MatchesBounded(ops: seq<Op>, from: nat, to: nat)
    requires from <= to <= |ops|
    ensures Matches(ops, to) - Matches(ops, from) + (if Run(ops[..to]).code == "" then 0 else 1)
         <= Published(ops, to) - Published(ops, from) + (if Run(ops[..from]).code == "" then 0 else 1)
  {
    if from < to {
      MatchesBounded(ops, from, to - 1);
      RunStep(ops, to - 1);
    }
  }

  /** Wrong codes leave an unexpired code in place; only a match, an expiry or
      a new publish changes what is stored. */
  lemma WrongCodeKeepsSlot(slot: Slot, code: string, now: int)
    ensures AfterJudge(slot, code, now) == slot <==> slot == EMPTY || Judge(slot, code, now) in {NoCodeSet, Wrong}
    ensures Judge(slot, code, now) == Matched <==> slot.code != "" && now <= slot.expiry && code == slot.code
  {
    if slot.code != "" {
      assert slot != EMPTY;
    }
  }

  // ---------------------------------------------------------------- the gate

  /** Attempt `k` uses up what publish `j` stored, by giving its code or by coming
      too late for it. */
  predicate Spends(ops: seq<Op>, j: nat, k: nat)
    requires j < |ops| && k < |ops|
  {
    && ops[j].PublishOp? && ops[k].ValidateOp?
    && (ops[k].code == ops[j].code || ops[k].at > ops[j].at + CodeTtl(ops[j].ttlMillis))
  }

  /** Publish `j` stands at `n`: no later one has replaced it, no attempt used it up. */
  predicate Stands(ops: seq<Op>, j: nat, n: nat)
    requires n <= |ops|
  {
    && j < n && ops[j].PublishOp? && IsSixDigits(ops[j].code)
    && forall k :: j < k < n ==> !(ops[k].PublishOp? && IsSixDigits(ops[k].code)) && !Spends(ops, j, k)
  }

  predicate StandsOn(ops: seq<Op>, j: nat, last: nat)
    requires last < |ops|
  {
    if Publishes(ops[last]) then j == last else Stands(ops, j, last) && !Spends(ops, j, last)
  }

  lemma StandsStep(ops: seq<Op>, j: nat, last: nat)
    requires last < |ops|
    ensures Stands(ops, j, last + 1) <==> StandsOn(ops, j, last)
  {
  }

  lemma {:induction false} StandingIsStored(ops: seq<Op>, n: nat) returns (held: Option<nat>)
    requires n <= |ops|
    ensures held.None? ==> Run(ops[..n]) == EMPTY && forall j: nat :: !Stands(ops, j, n)
    ensures held.Some? ==>
              && Stands(ops, held.value, n)
              && Run(ops[..n]) == Slot(ops[held.value].code, ops[held.value].at + CodeTtl(ops[held.value].ttlMillis))
              && forall j: nat :: Stands(ops, j, n) ==> j == held.value
  {
    held := None;
    if n > 0 {
      RunStep(ops, n - 1);
      held := StandingIsStored(ops, n - 1);
      forall j: nat ensures Stands(ops, j, n) <==> StandsOn(ops, j, n - 1) { StandsStep(ops, j, n - 1); }
      if Publishes(ops[n - 1]) {
        held := Some(n - 1);
      } else if held.Some? && Spends(ops, held.value, n - 1) {
        held := None;
      }
    }
  }

  /** What one attempt comes to: it is let through if no code is stored, or if it
      gives the stored one in time. */
  lemma PassesIff(slot: Slot, code: string, now: int)
    ensures Judge(slot, code, now).Passes() <==> slot.code == "" || (now <= slot.expiry && code == slot.code)
  {
  }

  /** Over every history of publishes and attempts: an attempt is let through if and
      only if no published code stands, or it gives, in time, the one that does. */
  lemma GateIff(ops: seq<Op>, i: nat)
    requires i < |ops| && ops[i].ValidateOp?
    ensures Judge(Run(ops[..i]), ops[i].code, ops[i].at).Passes() <==>
            forall j: nat :: Stands(ops, j, i) ==>
              ops[i].code == ops[j].code && ops[i].at <= ops[j].at + CodeTtl(ops[j].ttlMillis)
  {
    var held := StandingIsStored(ops, i);
    PassesIff(Run(ops[..i]), ops[i].code, ops[i].at);
  }

  /** Whatever published code stands after `ops` is the one given, in time. */
  ghost predicate GivesWhatStands(ops: seq<Op>, code: string, now: int) {
    forall j: nat :: Stands(ops, j, |ops|) ==>
      code == ops[j].code && now <= ops[j].at + CodeTtl(ops[j].ttlMillis)
  }

  lemma StoredIffStanding(ops: seq<Op>, code: string, now: int)
    ensures GivesWhatStands(ops, code, now) <==>
            Run(ops).code == "" || (now <= Run(ops).expiry && code == Run(ops).code)
  {
    assert ops[..|ops|] == ops;
    var held := StandingIsStored(ops, |ops|);
  }

  // ------------------------------------------------------- the code generator

  function Digit(d: int): (ch: char)
    requires 0 <= d < 10
    ensures IsDigit(ch) && DigitValue(ch) == d
  {
    '0' + d as char
  }

  function DigitValue(ch: char): (d: int)
    requires IsDigit(ch)
    ensures 0 <= d < 10 && '0' + d as char == ch
  {
    ch as int - '0' as int
  }

  /** `width` decimal digits of `n`, zero-padded on the left. */
  function Pad(n: nat, width: nat): (s: string)
    ensures |s| == width && forall i :: 0 <= i < width ==> IsDigit(s[i])
  {
    if width == 0 then "" else Pad(n / 10, width - 1) + [Digit(n % 10)]
  }

  function Value(s: string): nat
    requires forall i :: 0 <= i < |s| ==> IsDigit(s[i])
  {
    if s == "" then 0 else 10 * Value(s[..|s| - 1]) + DigitValue(s[|s| - 1])
  }

  function Pow10(width: nat): nat {
    if width == 0 then 1 else 10 * Pow10(width - 1)
  }

  lemma {:induction false} ValueOfPad(n: nat, width: nat)
    requires n < Pow10(width)
    ensures Value(Pad(n, width)) == n
  {
    if width > 0 {
      ValueOfPad(n / 10, width - 1);
      assert Pad(n, width)[..width - 1] == Pad(n / 10, width - 1);
    }
  }

  lemma {:induction false} PadOfValue(s: string)
    requires forall i :: 0 <= i < |s| ==> IsDigit(s[i])
    ensures Value(s) < Pow10(|s|)
    ensures Pad(Value(s), |s|) == s
  {
    if s != "" {
      PadOfValue(s[..|s| - 1]);
      assert Value(s) / 10 == Value(s[..|s| - 1]);
      assert s == s[..|s| - 1] + [s[|s| - 1]];
    }
  }

  /** The code printed for the random number `n`. */
  function TemporaryCode(n: nat): string {
    Pad(n, 6)
  }

  /** Formatting is a bijection from [0, 10^6) onto the strings the relay
      accepts as codes. */
  lemma TemporaryCodeBijection(n: nat, m: nat, code: string)
    ensures IsSixDigits(TemporaryCode(n))
    ensures n < 1_000_000 && m < 1_000_000 && TemporaryCode(n) == TemporaryCode(m) ==> n == m
    ensures IsSixDigits(code) ==> Value(code) < 1_000_000 && TemporaryCode(Value(code)) == code
  {
    assert Pow10(6) == 1_000_000 by {
      assert Pow10(3) == 1000;
    }
    if n < 1_000_000 { ValueOfPad(n, 6); }
    if m < 1_000_000 { ValueOfPad(m, 6); }
    if IsSixDigits(code) { PadOfValue(code); }
  }
}
