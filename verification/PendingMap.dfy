/** Pending session requests, keyed by one string made of both device ids.

    The table is meant to hold at most one request per (controller, controlled)
    pair.  This module says when the string key really stands for the pair, and
    that under this condition the table answers like a history of the pair. */
module PendingMap {
  import opened Protocol

  datatype PendingRequest = PendingRequest(
    controllerId: string, controlledId: string, mode: string, requestedAt: int)

  type Table = map<string, PendingRequest>

  const NUL: char := '\0'

  function Key(controllerId: string, controlledId: string): string {
    controllerId + [NUL] + controlledId
  }

  predicate NulFree(s: string) {
    NUL !in s
  }

  function Store(t: Table, controllerId: string, controlledId: string, mode: string, now: int): Table {
    t[Key(controllerId, controlledId) := PendingRequest(controllerId, controlledId, NormalizeMode(mode), now)]
  }

  function Lookup(t: Table, controllerId: string, controlledId: string): Option<PendingRequest> {
    var key := Key(controllerId, controlledId);
    if key in t then Some(t[key]) else None
  }

  function Remove(t: Table, controllerId: string, controlledId: string): Table {
    t - {Key(controllerId, controlledId)}
  }

  predicate Names(request: PendingRequest, device: string) {
    request.controllerId == device || request.controlledId == device
  }

  function DropDevice(t: Table, device: string): Table {
    map key | key in t && !Names(t[key], device) :: t[key]
  }

  // ---------------------------------------------------------------- the key

  /** A NUL-free controller id is the part of the key before its first NUL. */
  lemma KeyInjective(a: string, b: string, c: string, d: string)
    requires NulFree(a) && NulFree(c)
    requires Key(a, b) == Key(c, d)
    ensures a == c && b == d
  {
    var key := Key(a, b);
    assert key[|a|] == NUL && forall i :: 0 <= i < |a| ==> key[i] == a[i];
    assert Key(c, d)[|c|] == NUL && forall i :: 0 <= i < |c| ==> Key(c, d)[i] == c[i];
    assert a == key[..|a|] == Key(c, d)[..|c|] == c;
    assert b == key[|a| + 1..] == Key(c, d)[|c| + 1..] == d;
  }

  /** The key stands for one pair only exactly when neither id contains NUL. */
  lemma KeyDeterminesPairIff(a: string, b: string)
    ensures NulFree(a) && NulFree(b)
       <==> forall c: string, d: string :: Key(c, d) == Key(a, b) ==> c == a && d == b
  {
    if NulFree(a) && NulFree(b) {
      forall c: string, d: string | Key(c, d) == Key(a, b)
        ensures c == a && d == b
      {
        var key := Key(a, b);
        assert forall i :: 0 <= i < |key| && key[i] == NUL ==> i == |a|;
        assert Key(c, d)[|c|] == NUL;
        assert |c| == |a|;
        assert forall i :: 0 <= i < |c| ==> c[i] == Key(c, d)[i];
        KeyInjective(a, b, c, d);
      }
    } else if !NulFree(a) {
      var k :| 0 <= k < |a| && a[k] == NUL;
      var c, d := a[..k], a[k + 1..] + [NUL] + b;
      assert a == a[..k] + [NUL] + a[k + 1..];
      assert Key(c, d) == Key(a, b);
      assert |c| != |a|;
    } else {
      var k :| 0 <= k < |b| && b[k] == NUL;
      var c, d := a + [NUL] + b[..k], b[k + 1..];
      assert b == b[..k] + [NUL] + b[k + 1..];
      assert Key(c, d) == Key(a, b);
      assert |c| != |a|;
    }
  }

  // ------------------------------------------------------------- whole runs

  datatype Op =
    | StoreOp(controllerId: string, controlledId: string, mode: string, now: int)
    | ConsumeOp(controllerId: string, controlledId: string)
    | DropOp(device: string)

  function Apply(t: Table, op: Op): Table {
    match op
    case StoreOp(c, d, mode, now) => Store(t, c, d, mode, now)
    case ConsumeOp(c, d) => Remove(t, c, d)
    case DropOp(device) => DropDevice(t, device)
  }

  function Run(ops: seq<Op>): Table {
    if ops == [] then map[] else Apply(Run(ops[..|ops| - 1]), ops[|ops| - 1])
  }

  /** What a table keyed by pairs would hold for (c, d) after `ops`: the last
      request stored for that very pair, unless it was consumed or one of the
      two devices left afterwards. */
  function Latest(ops: seq<Op>, c: string, d: string): Option<PendingRequest> {
    if ops == [] then None
    else
      var before := Latest(ops[..|ops| - 1], c, d);
      match ops[|ops| - 1]
      case StoreOp(c', d', mode, now) =>
        if c' == c && d' == d then Some(PendingRequest(c, d, NormalizeMode(mode), now)) else before
      case ConsumeOp(c', d') => if c' == c && d' == d then None else before
      case DropOp(device) => if device == c || device == d then None else before
  }

  /** For a pair of NUL-free ids the string-keyed table refines the table keyed by
      pairs: in every run, whatever other ids contain, a lookup answers with the
      last request stored for the pair. */
  lemma {:induction false} LookupIsLatest(ops: seq<Op>, c: string, d: string)
    requires NulFree(c) && NulFree(d)
    ensures Lookup(Run(ops), c, d) == Latest(ops, c, d)
    ensures Key(c, d) in Run(ops) ==> Run(ops)[Key(c, d)].controllerId == c && Run(ops)[Key(c, d)].controlledId == d
  {
    if ops != [] {
      LookupIsLatest(ops[..|ops| - 1], c, d);
      KeyDeterminesPairIff(c, d);
    }
  }

  /** And for no other pair: the lookup is right in every run if and only if
      neither id contains NUL. */
  lemma LookupIsLatestIff(c: string, d: string)
    ensures (forall ops :: Lookup(Run(ops), c, d) == Latest(ops, c, d)) <==> NulFree(c) && NulFree(d)
  {
    KeyDeterminesPairIff(c, d);
    if NulFree(c) && NulFree(d) {
      forall ops ensures Lookup(Run(ops), c, d) == Latest(ops, c, d) { LookupIsLatest(ops, c, d); }
    } else {
      var c': string, d': string :| Key(c', d') == Key(c, d) && !(c' == c && d' == d);
      OthersRequest(c, d, c', d');
    }
  }

  /** A request of another pair with the same key is taken for one of this pair. */
  lemma OthersRequest(c: string, d: string, c': string, d': string)
    requires Key(c', d') == Key(c, d) && (c', d') != (c, d)
    ensures var ops := [StoreOp(c', d', MODE_VIEW, 0)]; Lookup(Run(ops), c, d).Some? && Latest(ops, c, d).None?
  {
    var ops := [StoreOp(c', d', MODE_VIEW, 0)];
    assert ops[..0] == [];
  }

  /** The operation says something about the request of (c, d). */
  predicate Concerns(op: Op, c: string, d: string) {
    match op
    case StoreOp(c', d', _, _) => c' == c && d' == d
    case ConsumeOp(c', d') => c' == c && d' == d
    case DropOp(device) => device == c || device == d
  }

  /** Operation `i` stores a request for (c, d), and nothing later concerns the pair. */
  predicate LastStore(ops: seq<Op>, i: nat, c: string, d: string) {
    && i < |ops| && ops[i].StoreOp? && Concerns(ops[i], c, d)
    && forall k :: i < k < |ops| ==> !Concerns(ops[k], c, d)
  }

  lemma {:induction false} LatestIsLastStore(ops: seq<Op>, c: string, d: string)
    ensures forall i: nat :: LastStore(ops, i, c, d) ==>
              Latest(ops, c, d) == Some(PendingRequest(c, d, NormalizeMode(ops[i].mode), ops[i].now))
    ensures (forall i: nat :: !LastStore(ops, i, c, d)) ==> Latest(ops, c, d) == None
  {
    if ops != [] {
      var prefix, op := ops[..|ops| - 1], ops[|ops| - 1];
      LatestIsLastStore(prefix, c, d);
      assert ops == prefix + [op];
      LastStoreOn(ops, prefix, op, c, d);
    }
  }

  lemma LastStoreOn(ops: seq<Op>, prefix: seq<Op>, op: Op, c: string, d: string)
    requires ops == prefix + [op]
    ensures !Concerns(op, c, d) ==> forall i: nat :: LastStore(ops, i, c, d) <==> LastStore(prefix, i, c, d)
    ensures Concerns(op, c, d) ==> (LastStore(ops, |prefix|, c, d) <==> op.StoreOp?)
    ensures Concerns(op, c, d) ==> forall i: nat :: LastStore(ops, i, c, d) ==> i == |prefix|
  {
    assert ops[|prefix|] == op;
    assert forall k :: 0 <= k < |prefix| ==> ops[k] == prefix[k];
  }
}
