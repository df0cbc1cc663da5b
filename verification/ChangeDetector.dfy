/** Suppression of frames that show nothing new: a frame is sent if its hash is
    new or if an interval has passed since the last one sent. */
module ChangeDetector {
  import opened Protocol

  const DEFAULT_INTERVAL := 5 * SECOND

  type Byte = x: int | 0 <= x < 256

  datatype Frame = Frame(width: int, height: int, codec: seq<Byte>, timestamp: int, data: seq<Byte>)

  datatype Decision = Decision(send: bool, changed: bool)

  // ------------------------------------------------------------------ the hash

  const WORD := 0x1_0000_0000_0000_0000
  const OFFSET_BASIS := 0xcbf29ce484222325
  const PRIME := 0x100000001b3

  type Word = x: int | 0 <= x < WORD

  function Pow2(n: nat): nat {
    if n == 0 then 1 else 2 * Pow2(n - 1)
  }

  /** Bitwise exclusive or of the lowest `n` bits. */
  function XorBits(a: nat, b: nat, n: nat): (r: nat)
    ensures r < Pow2(n)
  {
    if n == 0 then 0 else (a + b) % 2 + 2 * XorBits(a / 2, b / 2, n - 1)
  }

  /** Exclusive or with a byte changes the lowest eight bits only. */
  function Xor(h: Word, b: Byte): Word {
    assert Pow2(8) == 256 by { assert Pow2(4) == 16; }
    h / 256 * 256 + XorBits(h % 256, b, 8)
  }

  /** 64-bit multiplication wraps around. */
  function TimesPrime(h: Word): Word {
    h * PRIME % WORD
  }

  /** One byte of 64-bit FNV-1a. */
  function Mix(h: Word, b: Byte): Word {
    TimesPrime(Xor(h, b))
  }

  function Fold(h: Word, bytes: seq<Byte>): Word {
    if bytes == [] then h else Mix(Fold(h, bytes[..|bytes| - 1]), bytes[|bytes| - 1])
  }

  method HashBytes(h: Word, bytes: seq<Byte>) returns (r: Word)
    ensures r == Fold(h, bytes)
  {
    r := h;
    var k := 0;
    while k < |bytes|
      invariant k <= |bytes|
      invariant r == Fold(h, bytes[..k])
    {
      r := Xor(r, bytes[k]);
      r := TimesPrime(r);
      assert bytes[..k + 1][..k] == bytes[..k];
      k := k + 1;
    }
    assert bytes[..|bytes|] == bytes;
  }

  /** The eight bytes of a number, the lowest first, in two's complement. */
  function LittleEndian(n: int): (s: seq<Byte>)
    ensures |s| == 8
  {
    seq(8, i requires 0 <= i < 8 => (n / Pow256(i)) % 256)
  }

  function Pow256(i: nat): (p: int)
    ensures p > 0
  {
    if i == 0 then 1 else 256 * Pow256(i - 1)
  }

  /** What the hash of a frame is taken over: not its timestamp. */
  function Bytes(frame: Frame): seq<Byte> {
    LittleEndian(frame.width) + LittleEndian(frame.height) + frame.codec + frame.data
  }

  function Hash(frame: Frame): Word {
    Fold(OFFSET_BASIS, Bytes(frame))
  }

  /** The number that eight bytes stand for, the lowest first. */
  function FromLittleEndian(s: seq<Byte>): nat {
    if s == [] then 0 else s[0] + 256 * FromLittleEndian(s[1..])
  }

  function DigitsFrom(n: int, i: nat): seq<Byte>
    requires i <= 8
    decreases 8 - i
  {
    if i == 8 then [] else [(n / Pow256(i)) % 256] + DigitsFrom(n, i + 1)
  }

  lemma DivideAgain(n: int, p: int)
    requires p > 0
    ensures n / p / 256 == n / (256 * p)
  {
    var q, r := n / p, n % p;
    var a, b := q / 256, q % 256;
    Regroup(p, a, b);
    Below(p, b);
    QuotientIs(n, 256 * p, a, p * b + r);
  }

  lemma Regroup(p: int, a: int, b: int)
    ensures p * (256 * a + b) == (256 * p) * a + p * b
  {
  }

  lemma Below(p: int, b: int)
    requires p > 0 && 0 <= b <= 255
    ensures 0 <= p * b <= 255 * p
  {
  }

  lemma QuotientIs(n: int, d: int, q: int, r: int)
    requires d > 0 && n == d * q + r && 0 <= r < d
    ensures n / d == q
  {
    var q', r' := n / d, n % d;
    assert d * q' + r' == n && 0 <= r' < d;
    if q > q' { Multiple(d, q - q'); } else if q < q' { Multiple(d, q' - q); }
  }

  lemma Multiple(d: int, k: int)
    requires d > 0 && k >= 1
    ensures d * k >= d
  {
  }

  lemma {:induction false} DigitsStandFor(n: int, i: nat)
    requires i <= 8
    ensures |DigitsFrom(n, i)| == 8 - i
    ensures forall k :: 0 <= k < 8 - i ==> DigitsFrom(n, i)[k] == (n / Pow256(i + k)) % 256
    ensures FromLittleEndian(DigitsFrom(n, i)) == (n / Pow256(i)) % Pow256(8 - i)
    decreases 8 - i
  {
    if i < 8 {
      DigitsStandFor(n, i + 1);
      DivideAgain(n, Pow256(i));
      SplitRemainder(n / Pow256(i), Pow256(8 - i - 1));
    }
  }

  lemma SplitRemainder(m: int, p: int)
    requires p > 0
    ensures m % (256 * p) == m % 256 + 256 * (m / 256 % p)
  {
    var q, r := m / 256, m % 256;
    assert q == p * (q / p) + q % p;
    assert m == 256 * p * (q / p) + (256 * (q % p) + r);
    QuotientIs(m, 256 * p, q / p, 256 * (q % p) + r);
  }

  /** The bytes hashed for a size are those of its 64-bit two's complement, the
      lowest first: different sizes give different bytes. */
  lemma LittleEndianStandsFor(n: int)
    ensures FromLittleEndian(LittleEndian(n)) == n % WORD
  {
    DigitsStandFor(n, 0);
    assert LittleEndian(n) == DigitsFrom(n, 0);
    assert Pow256(8) == WORD by { assert Pow256(4) == 0x1_0000_0000; }
  }

  /** The published test vectors of 64-bit FNV-1a for no byte and for "a". */
  lemma TestVectors()
    ensures Fold(OFFSET_BASIS, []) == 0xcbf29ce484222325
    ensures Fold(OFFSET_BASIS, [97]) == 0xaf63dc4c8601ec8c
  {
    FoldOne(OFFSET_BASIS, 97);
    MixOfA();
  }

  lemma MixOfA()
    ensures Mix(OFFSET_BASIS, 97) == 0xaf63dc4c8601ec8c
  {
    XorWithA();
    Product();
  }

  lemma Product()
    ensures 0xcbf29ce484222344 * PRIME % WORD == 0xaf63dc4c8601ec8c
  {
  }

  lemma XorWithA()
    ensures Xor(OFFSET_BASIS, 97) == 0xcbf29ce484222344
  {
    XorOfA();
    XorParts(OFFSET_BASIS, 97);
    assert OFFSET_BASIS / 256 == 0xcbf29ce4842223 && OFFSET_BASIS % 256 == 37;
  }

  lemma XorOfA()
    ensures XorBits(37, 97, 8) == 68
  {
    assert XorBits(0, 1, 2) == 1;
    assert XorBits(2, 6, 4) == 4;
    assert XorBits(9, 24, 6) == 17;
  }

  lemma {:induction false} FoldConcat(h: Word, a: seq<Byte>, b: seq<Byte>)
    ensures Fold(h, a + b) == Fold(Fold(h, a), b)
  {
    if b == [] {
      assert a + b == a;
    } else {
      FoldConcat(h, a, b[..|b| - 1]);
      assert (a + b)[..|a + b| - 1] == a + b[..|b| - 1];
    }
  }

  // --------------------------------------------------------------- the detector

  datatype Memory = Memory(initialized: bool, lastHash: Word, lastSentAt: Option<int>)

  const BLANK := Memory(false, 0, None)

  /** The time of a frame: its own stamp, or the clock if it has none. */
  function FrameTime(frame: Frame, clock: int): int {
    if frame.timestamp > 0 then frame.timestamp * MILLISECOND else clock
  }

  function Interval(interval: int): (d: int)
    ensures d > 0
  {
    if interval <= 0 then DEFAULT_INTERVAL else interval
  }

  function Observed(m: Memory, interval: int, frame: Frame, clock: int): (Memory, Decision) {
    var now, hash := FrameTime(frame, clock), Hash(frame);
    if !m.initialized || hash != m.lastHash then (Memory(true, hash, Some(now)), Decision(true, true))
    else if m.lastSentAt == None || now - m.lastSentAt.value >= interval
    then (m.(lastSentAt := Some(now)), Decision(true, false))
    else (m, Decision(false, false))
  }

  class Detector {
    var staticFrameInterval: int
    var initialized: bool
    var lastHash: Word
    var lastSentAt: Option<int>

    constructor (interval: int)
      ensures staticFrameInterval == interval && Current() == BLANK
    {
      staticFrameInterval := interval;
      initialized, lastHash, lastSentAt := false, 0, None;
    }

    function Current(): Memory
      reads this
    {
      Memory(initialized, lastHash, lastSentAt)
    }

    method Observe(frame: Frame, clock: int) returns (decision: Decision)
      modifies this
      ensures staticFrameInterval == Interval(old(staticFrameInterval))
      ensures (Current(), decision) == Observed(old(Current()), Interval(old(staticFrameInterval)), frame, clock)
      ensures staticFrameInterval == if old(staticFrameInterval) > 0 then old(staticFrameInterval) else 5_000_000_000
      ensures decision.send ==> lastSentAt == Some(if frame.timestamp > 0 then frame.timestamp * 1_000_000 else clock)
      ensures !decision.send ==> Current() == old(Current())
    {
      if staticFrameInterval <= 0 {
        staticFrameInterval := DEFAULT_INTERVAL;
      }
      var now := clock;
      if frame.timestamp > 0 {
        now := frame.timestamp * MILLISECOND;
      }
      var hash := HashFrame(frame);
      var changed := !initialized || hash != lastHash;
      if changed {
        initialized := true;
        lastHash := hash;
        lastSentAt := Some(now);
        return Decision(true, true);
      }
      if lastSentAt == None || now - lastSentAt.value >= staticFrameInterval {
        lastSentAt := Some(now);
        return Decision(true, false);
      }
      return Decision(false, false);
    }
  }

  method HashFrame(frame: Frame) returns (h: Word)
    ensures h == Hash(frame)
  {
    h := HashBytes(OFFSET_BASIS, LittleEndian(frame.width));
    h := HashBytes(h, LittleEndian(frame.height));
    h := HashBytes(h, frame.codec);
    h := HashBytes(h, frame.data);
    FoldConcat(OFFSET_BASIS, LittleEndian(frame.width), LittleEndian(frame.height));
    FoldConcat(OFFSET_BASIS, LittleEndian(frame.width) + LittleEndian(frame.height), frame.codec);
    FoldConcat(OFFSET_BASIS, LittleEndian(frame.width) + LittleEndian(frame.height) + frame.codec, frame.data);
  }

  // ------------------------------------------------------------------ whole runs

  datatype Shot = Shot(frame: Frame, clock: int)

  function Watch(interval: int, shots: seq<Shot>): Memory {
    if shots == [] then BLANK
    else
      var last := shots[|shots| - 1];
      Observed(Watch(interval, shots[..|shots| - 1]), interval, last.frame, last.clock).0
  }

  function DecisionAt(interval: int, shots: seq<Shot>, i: nat): Decision
    requires i < |shots|
  {
    Observed(Watch(interval, shots[..i]), interval, shots[i].frame, shots[i].clock).1
  }

  function At(shots: seq<Shot>, i: nat): int
    requires i < |shots|
  {
    FrameTime(shots[i].frame, shots[i].clock)
  }

  /** `k` is the last shot that was sent. */
  ghost predicate LastSent(interval: int, shots: seq<Shot>, k: int) {
    && 0 <= k < |shots| && DecisionAt(interval, shots, k).send
    && forall j :: k < j < |shots| ==> !DecisionAt(interval, shots, j).send
  }

  lemma DecisionsOfPrefix(interval: int, shots: seq<Shot>, j: nat)
    requires j < |shots| - 1
    ensures DecisionAt(interval, shots[..|shots| - 1], j) == DecisionAt(interval, shots, j)
  {
    assert shots[..|shots| - 1][..j] == shots[..j];
  }

  lemma LastOfPrefix(interval: int, shots: seq<Shot>)
    requires shots != []
    ensures DecisionAt(interval, shots, |shots| - 1)
         == Observed(Watch(interval, shots[..|shots| - 1]), interval, shots[|shots| - 1].frame, shots[|shots| - 1].clock).1
  {
  }

  /** After every frame the receiver, which shows the last frame sent, shows a
      frame with the hash of the current one; and the detector remembers the
      hash and the time of just that frame. */
  lemma {:induction false} ReceiverKeepsUp(interval: int, shots: seq<Shot>) returns (k: int)
    requires shots != []
    ensures LastSent(interval, shots, k)
    ensures Hash(shots[k].frame) == Hash(shots[|shots| - 1].frame)
    ensures Watch(interval, shots) == Memory(true, Hash(shots[k].frame), Some(At(shots, k)))
  {
    var prefix, n := shots[..|shots| - 1], |shots| - 1;
    LastOfPrefix(interval, shots);
    k := n;
    if !DecisionAt(interval, shots, n).send {
      k := ReceiverKeepsUp(interval, prefix);
      DecisionsOfPrefix(interval, shots, k);
      forall j | k < j < |shots| ensures !DecisionAt(interval, shots, j).send {
        if j < n { DecisionsOfPrefix(interval, shots, j); }
      }
    }
  }

  /** A frame that shows nothing new is sent if and only if at least one
      interval has passed since the last frame sent, whatever that was; a frame
      with a new hash is always sent, and the very first one too. */
  lemma SentIff(interval: int, shots: seq<Shot>, i: nat) returns (k: int)
    requires 0 < i < |shots|
    ensures LastSent(interval, shots[..i], k)
    ensures DecisionAt(interval, shots, i).changed <==> Hash(shots[i].frame) != Hash(shots[i - 1].frame)
    ensures DecisionAt(interval, shots, i).send <==>
            DecisionAt(interval, shots, i).changed || At(shots, i) - At(shots, k) >= interval
    ensures DecisionAt(interval, shots, 0) == Decision(true, true)
  {
    k := ReceiverKeepsUp(interval, shots[..i]);
    assert shots[..0] == [];
  }

  // ------------------------------------------------------- what the hash detects

  const PRIME_INVERSE := 0xce965057aff6957b

  /** PRIME * PRIME_INVERSE == 1 + WRAPS * WORD. */
  const WRAPS := 0xce9650590f

  lemma Cancel(d: int, w: int)
    requires d * PRIME == w * WORD && -WORD < d < WORD
    ensures d == 0
  {
    assert d == (w * PRIME_INVERSE - d * WRAPS) * WORD;
  }

  lemma TimesPrimeInjective(x: Word, y: Word)
    requires TimesPrime(x) == TimesPrime(y)
    ensures x == y
  {
    Cancel(x - y, x * PRIME / WORD - y * PRIME / WORD);
  }

  lemma {:induction false} XorBitsSymmetric(a: nat, b: nat, n: nat)
    ensures XorBits(a, b, n) == XorBits(b, a, n)
  {
    if n > 0 { XorBitsSymmetric(a / 2, b / 2, n - 1); }
  }

  lemma SameBit(a: nat, b: nat, c: nat, x: nat, y: nat)
    requires (a + c) % 2 + 2 * x == (b + c) % 2 + 2 * y
    ensures x == y && a % 2 == b % 2
  {
  }

  lemma {:induction false} XorBitsInjective(a: nat, b: nat, c: nat, n: nat)
    requires a < Pow2(n) && b < Pow2(n) && c < Pow2(n)
    requires XorBits(a, c, n) == XorBits(b, c, n)
    ensures a == b
  {
    if n > 0 {
      SameBit(a, b, c, XorBits(a / 2, c / 2, n - 1), XorBits(b / 2, c / 2, n - 1));
      XorBitsInjective(a / 2, b / 2, c / 2, n - 1);
    }
  }

  lemma XorParts(h: Word, b: Byte)
    ensures Xor(h, b) / 256 == h / 256 && Xor(h, b) % 256 == XorBits(h % 256, b, 8)
  {
    assert Pow2(8) == 256 by { assert Pow2(4) == 16; }
  }

  lemma XorInjective(x: Word, y: Word, b: Byte, c: Byte)
    ensures Xor(x, b) == Xor(y, b) ==> x == y
    ensures Xor(x, b) == Xor(x, c) ==> b == c
  {
    XorParts(x, b);
    XorParts(y, b);
    XorParts(x, c);
    assert Pow2(8) == 256 by { assert Pow2(4) == 16; }
    XorBitsSymmetric(x % 256, b, 8);
    XorBitsSymmetric(x % 256, c, 8);
    if Xor(x, b) == Xor(y, b) { XorBitsInjective(x % 256, y % 256, b, 8); }
    if Xor(x, b) == Xor(x, c) { XorBitsInjective(b, c, x % 256, 8); }
  }

  /** Equal bytes never bring different hashes together. */
  lemma {:induction false} FoldInjective(x: Word, y: Word, bytes: seq<Byte>)
    requires Fold(x, bytes) == Fold(y, bytes)
    ensures x == y
  {
    if bytes != [] {
      var prefix, b := bytes[..|bytes| - 1], bytes[|bytes| - 1];
      TimesPrimeInjective(Xor(Fold(x, prefix), b), Xor(Fold(y, prefix), b));
      XorInjective(Fold(x, prefix), Fold(y, prefix), b, b);
      FoldInjective(x, y, prefix);
    }
  }

  /** A change of a single byte is always detected. */
  lemma OneByteChangesHash(h: Word, bytes: seq<Byte>, i: nat, b: Byte)
    requires i < |bytes| && bytes[i] != b
    ensures Fold(h, bytes[i := b]) != Fold(h, bytes)
  {
    var before, after := bytes[..i], bytes[i + 1..];
    assert bytes == before + ([bytes[i]] + after);
    assert bytes[i := b] == before + ([b] + after);
    FoldConcat(h, before, [bytes[i]] + after);
    FoldConcat(h, before, [b] + after);
    var x := Fold(h, before);
    FoldConcat(x, [bytes[i]], after);
    FoldConcat(x, [b], after);
    if Fold(x, [bytes[i]] + after) == Fold(x, [b] + after) {
      FoldInjective(Fold(x, [bytes[i]]), Fold(x, [b]), after);
      FoldOne(x, bytes[i]);
      FoldOne(x, b);
      TimesPrimeInjective(Xor(x, bytes[i]), Xor(x, b));
      XorInjective(x, x, bytes[i], b);
    }
  }

  lemma FoldOne(h: Word, b: Byte)
    ensures Fold(h, [b]) == Mix(h, b)
  {
    assert [b][..0] == [];
  }

  /** So a frame in which one byte of the picture changed is never suppressed. */
  lemma OneByteIsSent(interval: int, shots: seq<Shot>, i: nat, k: nat, b: Byte)
    requires 0 < i < |shots| && k < |shots[i - 1].frame.data| && shots[i - 1].frame.data[k] != b
    requires shots[i].frame == shots[i - 1].frame.(data := shots[i - 1].frame.data[k := b], timestamp := shots[i].frame.timestamp)
    ensures DecisionAt(interval, shots, i) == Decision(true, true)
  {
    var was, now := shots[i - 1].frame, shots[i].frame;
    var prefix := LittleEndian(was.width) + LittleEndian(was.height) + was.codec;
    assert Bytes(now) == Bytes(was)[|prefix| + k := b];
    OneByteChangesHash(OFFSET_BASIS, Bytes(was), |prefix| + k, b);
    var sent := SentIff(interval, shots, i);
  }

  /** But codec and data are hashed without a mark between them: when the two
      run together to the same bytes, a different frame of the same size is taken
      for a repetition of the one before. */
  lemma RunTogetherIsSuppressed(interval: int, shots: seq<Shot>, i: nat)
    requires 0 < i < |shots|
    requires shots[i].frame.width == shots[i - 1].frame.width && shots[i].frame.height == shots[i - 1].frame.height
    requires shots[i].frame.codec + shots[i].frame.data == shots[i - 1].frame.codec + shots[i - 1].frame.data
    ensures !DecisionAt(interval, shots, i).changed
  {
    var was, now := shots[i - 1].frame, shots[i].frame;
    var head := LittleEndian(was.width) + LittleEndian(was.height);
    assert Bytes(was) == head + (was.codec + was.data);
    assert Bytes(now) == head + (now.codec + now.data);
    var sent := SentIff(interval, shots, i);
  }
}
