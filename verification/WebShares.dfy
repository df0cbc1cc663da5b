/** Web control links.  The relay purges dead links only when a lookup or a
    listing happens to meet them; this module proves that callers cannot tell,
    by relating the stored table to the history of the run alone. */
module WebShares {
  import opened Protocol

  const DEFAULT_TTL := 60 * MINUTE
  const MAX_TTL := 7 * 24 * 60 * MINUTE

  datatype WebShare = WebShare(
    id: string, token: string, controlledId: string, controlledName: string,
    mode: string, shareLabel: string, createdAt: int, expiresAt: int,
    revoked: bool, revokedAt: int)

  type Table = map<string, WebShare>

  /** Total on every 64-bit `ttl_ms`, including values whose product with one
      millisecond wraps around.  A request of nothing or less means an hour; others
      come to the nearest lifetime between a minute and seven days. */
  function ShareTtl(ttlMillis: int): (ttl: int)
    ensures 60_000 * MILLISECOND <= ttl <= 604_800_000 * MILLISECOND
    ensures 60_000 <= ttlMillis <= 604_800_000 ==> ttl == ttlMillis * MILLISECOND
    ensures var asked := MillisToDuration(ttlMillis);
      && (asked <= 0 ==> ttl == 3_600_000 * MILLISECOND)
      && (0 < asked <= 60_000 * MILLISECOND ==> ttl == 60_000 * MILLISECOND)
      && (60_000 * MILLISECOND <= asked <= 604_800_000 * MILLISECOND ==> ttl == asked)
      && (asked >= 604_800_000 * MILLISECOND ==> ttl == 604_800_000 * MILLISECOND)
  {
    var asked := MillisToDuration(ttlMillis);
    if asked <= 0 then DEFAULT_TTL
    else if asked > MAX_TTL then MAX_TTL
    else if asked < MINUTE then MINUTE
    else asked
  }

  function NewShare(id: string, token: string, device: string, name: string,
                    mode: string, shareLabel: string, ttlMillis: int, now: int): WebShare {
    WebShare(id, token, device, name, NormalizeMode(mode), shareLabel, now, now + ShareTtl(ttlMillis), false, 0)
  }

  predicate Dead(share: WebShare, now: int) {
    share.revoked || now > share.expiresAt
  }

  // ------------------------------------------------------ critical sections

  function Create(t: Table, share: WebShare): Table {
    t[share.token := share]
  }

  datatype LookupError = TokenRequired | NotFound | ExpiredOrRevoked | DeviceOffline
  datatype Lookup = Found(share: WebShare) | Refused(error: LookupError)

  function Get(t: Table, token: string, now: int, online: set<string>): Lookup {
    if token == "" then Refused(TokenRequired)
    else if token !in t then Refused(NotFound)
    else if Dead(t[token], now) then Refused(ExpiredOrRevoked)
    else if t[token].controlledId !in online then Refused(DeviceOffline)
    else Found(t[token])
  }

  function AfterGet(t: Table, token: string, now: int): Table {
    if token != "" && token in t && Dead(t[token], now) then t - {token} else t
  }

  /** A listing walks the whole table and drops every dead link it meets. */
  function Purged(t: Table, now: int): Table {
    map token | token in t && !Dead(t[token], now) :: t[token]
  }

  function Listed(t: Table, device: string, now: int): set<WebShare> {
    set token | token in t && !Dead(t[token], now) && t[token].controlledId == device :: t[token]
  }

  /** What a revoke request of `device` may pick; the map walk stops at the
      first hit, so with an id and a token of two links either may go. */
  predicate Revocable(share: WebShare, device: string, id: string, token: string) {
    && share.controlledId == device
    && ((id != "" && share.id == id) || (token != "" && share.token == token))
  }

  function AfterRevoke(t: Table, device: string, id: string, token: string, picked: string): Table {
    if picked in t && Revocable(t[picked], device, id, token) then t - {picked} else t
  }

  /** A device that disconnects takes all its links with it. */
  function AfterDisconnect(t: Table, device: string, now: int): Table {
    map token | token in t ::
      if t[token].controlledId == device then t[token].(revoked := true, revokedAt := now) else t[token]
  }

  // ------------------------------------------------------------- whole runs

  datatype Op =
    | CreateOp(id: string, token: string, device: string, name: string,
               mode: string, shareLabel: string, ttlMillis: int, at: int)
    | GetOp(token: string, at: int)
    | ListOp(device: string, at: int)
    | RevokeOp(device: string, id: string, token: string, picked: string, at: int)
    | DisconnectOp(device: string, at: int)

  function Share(op: Op): WebShare
    requires op.CreateOp?
  {
    NewShare(op.id, op.token, op.device, op.name, op.mode, op.shareLabel, op.ttlMillis, op.at)
  }

  function Apply(t: Table, op: Op): Table {
    match op
    case CreateOp(_, _, _, _, _, _, _, _) => Create(t, Share(op))
    case GetOp(token, at) => AfterGet(t, token, at)
    case ListOp(_, at) => Purged(t, at)
    case RevokeOp(device, id, token, picked, _) => AfterRevoke(t, device, id, token, picked)
    case DisconnectOp(device, at) => AfterDisconnect(t, device, at)
  }

  function Run(ops: seq<Op>): Table {
    if ops == [] then map[] else Apply(Run(ops[..|ops| - 1]), ops[|ops| - 1])
  }

  /** The link the history has granted for `token` and not taken back: lookups
      and listings do not occur in this definition. */
  function Granted(ops: seq<Op>, token: string): Option<WebShare> {
    if ops == [] then None
    else
      var before := Granted(ops[..|ops| - 1], token);
      var op := ops[|ops| - 1];
      match op
      case CreateOp(_, created, _, _, _, _, _, _) => if created == token then Some(Share(op)) else before
      case RevokeOp(device, id, tok, picked, _) =>
        if picked == token && before.Some? && Revocable(before.value, device, id, tok) then None else before
      case DisconnectOp(device, _) =>
        if before.Some? && before.value.controlledId == device then None else before
      case _ => before
  }

  /** The stored share of a live token, if any. */
  function Live(t: Table, token: string, now: int): Option<WebShare> {
    if token in t && !Dead(t[token], now) then Some(t[token]) else None
  }

  function Unexpired(share: Option<WebShare>, now: int): Option<WebShare> {
    if share.Some? && now <= share.value.expiresAt then share else None
  }

  function Later(a: int, b: int): int {
    if a <= b then b else a
  }

  /** Sections read the clock before they take the mutex, so they may run in
      another order than that of their readings.  What `token` is judged by at
      reading `now` is the latest of `now` and the readings of the look-ups of
      `token` and the listings that ran since it was created. */
  function Reading(ops: seq<Op>, token: string, now: int): int {
    if ops == [] then now
    else
      var before := ops[..|ops| - 1];
      match ops[|ops| - 1]
      case CreateOp(_, created, _, _, _, _, _, _) => if created == token then now else Reading(before, token, now)
      case GetOp(tok, at) => Reading(before, token, if tok == token != "" then Later(now, at) else now)
      case ListOp(_, at) => Reading(before, token, Later(now, at))
      case _ => Reading(before, token, now)
  }

  /** A reading that no section overtook stands for itself. */
  lemma {:induction false} NotOvertaken(ops: seq<Op>, token: string, now: int)
    requires forall i :: 0 <= i < |ops| && (ops[i].GetOp? || ops[i].ListOp?) ==> ops[i].at <= now
    ensures Reading(ops, token, now) == now
  {
    if ops != [] { NotOvertaken(ops[..|ops| - 1], token, now); }
  }

  lemma {:induction false} ReadingGrows(ops: seq<Op>, token: string, earlier: int, now: int)
    requires earlier <= now
    ensures Reading(ops, token, earlier) <= Reading(ops, token, now)
    ensures now <= Reading(ops, token, now)
  {
    if ops != [] {
      var before, op := ops[..|ops| - 1], ops[|ops| - 1];
      ReadingGrows(before, token, earlier, now);
      if op.GetOp? || op.ListOp? {
        ReadingGrows(before, token, Later(earlier, op.at), Later(now, op.at));
      }
    }
  }

  /** Lazy expiry refines the eager registry: in every run, in whatever order the
      sections read the clock, the live links are exactly the granted ones that
      are unexpired. */
  lemma {:induction false} LiveIsGranted(ops: seq<Op>, token: string, now: int)
    ensures Live(Run(ops), token, now) == Unexpired(Granted(ops, token), Reading(ops, token, now))
    ensures token in Run(ops) ==> Run(ops)[token].token == token
    ensures token in Run(ops) ==> MINUTE <= Run(ops)[token].expiresAt - Run(ops)[token].createdAt <= MAX_TTL
    ensures Granted(ops, token).Some? ==> !Granted(ops, token).value.revoked
  {
    if ops != [] {
      var prefix, op := ops[..|ops| - 1], ops[|ops| - 1];
      LiveIsGranted(prefix, token, now);
      if op.GetOp? || op.ListOp? {
        LiveIsGranted(prefix, token, Later(now, op.at));
      } else if token in Run(prefix) {
        LiveIsGranted(prefix, token, Run(prefix)[token].expiresAt);
      }
    }
  }

  /** Lookups and listings may shrink the table, but never change what is live
      now or at any later time. */
  lemma PurgesAreInvisible(t: Table, op: Op, token: string, now: int)
    requires op.GetOp? || op.ListOp?
    requires op.at <= now
    ensures Live(Apply(t, op), token, now) == Live(t, token, now)
    ensures Apply(t, op).Keys <= t.Keys
  {
    if op.GetOp? { assert AfterGet(t, op.token, op.at).Keys <= t.Keys; }
  }

  /** The link that the history has granted for `token`, unless it is over by the
      reading that counts. */
  function Standing(ops: seq<Op>, token: string, now: int): Option<WebShare> {
    Unexpired(Granted(ops, token), Reading(ops, token, now))
  }

  /** What visitors and devices are told in a run depends on the history only:
      a lookup succeeds exactly for granted, unexpired links of online devices,
      and a listing is the set of the device's granted, unexpired links. */
  lemma AnswersFollowHistory(ops: seq<Op>, token: string, device: string, now: int, online: set<string>)
    ensures Get(Run(ops), token, now, online).Found? <==>
            token != "" && Standing(ops, token, now).Some? && Granted(ops, token).value.controlledId in online
    ensures forall share :: share in Listed(Run(ops), device, now) <==>
            share.controlledId == device && Standing(ops, share.token, now) == Some(share)
  {
    LiveIsGranted(ops, token, now);
    forall share
      ensures share in Listed(Run(ops), device, now) <==>
              share.controlledId == device && Standing(ops, share.token, now) == Some(share)
    {
      LiveIsGranted(ops, share.token, now);
      if share in Listed(Run(ops), device, now) {
        var k :| k in Run(ops) && Run(ops)[k] == share && !Dead(share, now) && share.controlledId == device;
        LiveIsGranted(ops, k, now);
      }
    }
  }

  // ----------------------------------------------------------- what a link grants

  /** Operation `k` takes back the link created at `i`: it creates another one with
      its token, revokes it for its device, by id or by token, or its device leaves. */
  predicate TakesBack(ops: seq<Op>, i: nat, k: nat)
    requires i < |ops| && k < |ops| && ops[i].CreateOp?
  {
    match ops[k]
    case CreateOp(_, created, _, _, _, _, _, _) => created == ops[i].token
    case RevokeOp(device, id, token, picked, _) =>
      && picked == ops[i].token && device == ops[i].device
      && ((id != "" && id == ops[i].id) || (token != "" && token == ops[i].token))
    case DisconnectOp(device, _) => device == ops[i].device
    case _ => false
  }

  /** The link created at `i` for `token` has not been taken back. */
  predicate Grants(ops: seq<Op>, i: nat, token: string) {
    && i < |ops| && ops[i].CreateOp? && ops[i].token == token
    && forall k :: i < k < |ops| ==> !TakesBack(ops, i, k)
  }

  /** The link is for the device that asked for it, in the mode it asked for,
      view-control only if it asked for just that, and for the lifetime asked for
      as far as the bounds allow. */
  predicate AsAsked(share: WebShare, op: Op)
    requires op.CreateOp?
  {
    && share.id == op.id && share.token == op.token
    && share.controlledId == op.device && share.controlledName == op.name && share.shareLabel == op.shareLabel
    && IsMode(share.mode) && (share.mode == MODE_VIEW_CONTROL <==> op.mode == MODE_VIEW_CONTROL)
    && share.createdAt == op.at && share.expiresAt == op.at + ShareTtl(op.ttlMillis)
    && !share.revoked
  }

  lemma GrantsStep(ops: seq<Op>, prefix: seq<Op>, op: Op, i: nat, token: string)
    requires ops == prefix + [op]
    ensures Grants(ops, i, token) <==>
            || (i == |prefix| && op.CreateOp? && op.token == token)
            || (Grants(prefix, i, token) && !TakesBack(ops, i, |prefix|))
  {
    assert forall k :: 0 <= k < |prefix| ==> ops[k] == prefix[k];
    if i < |prefix| && prefix[i].CreateOp? {
      assert forall k :: i < k < |prefix| ==> TakesBack(ops, i, k) == TakesBack(prefix, i, k);
    }
  }

  lemma {:induction false} GrantedAsAsked(ops: seq<Op>, token: string) returns (g: Option<nat>)
    ensures g.None? ==> Granted(ops, token) == None && forall i: nat :: !Grants(ops, i, token)
    ensures g.Some? ==>
              && Grants(ops, g.value, token) && (forall i: nat :: Grants(ops, i, token) ==> i == g.value)
              && Granted(ops, token).Some? && AsAsked(Granted(ops, token).value, ops[g.value])
  {
    g := None;
    if ops != [] {
      var prefix, op := ops[..|ops| - 1], ops[|ops| - 1];
      assert ops == prefix + [op];
      g := GrantedAsAsked(prefix, token);
      forall i: nat
        ensures Grants(ops, i, token) <==>
                || (i == |prefix| && op.CreateOp? && op.token == token)
                || (Grants(prefix, i, token) && !TakesBack(ops, i, |prefix|))
      {
        GrantsStep(ops, prefix, op, i, token);
      }
      if op.CreateOp? && op.token == token {
        g := Some(|prefix|);
      } else if g.Some? && TakesBack(ops, g.value, |prefix|) {
        g := None;
      }
    }
  }

  lemma FoundIsLive(t: Table, token: string, now: int, online: set<string>)
    ensures Get(t, token, now, online).Found? <==>
            token != "" && Live(t, token, now).Some? && Live(t, token, now).value.controlledId in online
    ensures Get(t, token, now, online).Found? ==> Live(t, token, now) == Some(Get(t, token, now, online).share)
  {
  }

  /** Over every history: a look-up finds a link if and only if one was created for
      the token, nothing has taken it back, it is not over by the reading that
      counts, and its device is online; and the link found is as it was asked for. */
  lemma FoundAsAsked(ops: seq<Op>, token: string, now: int, online: set<string>)
    ensures Get(Run(ops), token, now, online).Found? <==>
            token != "" && exists i: nat :: Grants(ops, i, token) && IsOpen(ops, i, token, now, online)
    ensures Get(Run(ops), token, now, online).Found? ==>
            exists i: nat :: Grants(ops, i, token) && AsAsked(Get(Run(ops), token, now, online).share, ops[i])
  {
    LiveIsGranted(ops, token, now);
    FoundIsLive(Run(ops), token, now, online);
    var g := GrantedAsAsked(ops, token);
    if g.Some? { OpenIff(ops, g.value, token, Granted(ops, token).value, now, online); }
  }

  /** The device of link `i` is online, and the link is not over by the reading
      that counts. */
  predicate IsOpen(ops: seq<Op>, i: nat, token: string, now: int, online: set<string>)
    requires i < |ops| && ops[i].CreateOp?
  {
    ops[i].device in online && Reading(ops, token, now) <= ops[i].at + ShareTtl(ops[i].ttlMillis)
  }

  lemma OpenIff(ops: seq<Op>, i: nat, token: string, share: WebShare, now: int, online: set<string>)
    requires i < |ops| && ops[i].CreateOp? && AsAsked(share, ops[i])
    ensures IsOpen(ops, i, token, now, online) <==>
            Unexpired(Some(share), Reading(ops, token, now)).Some? && share.controlledId in online
  {
  }

  /** Tokens are random: no token is created twice. */
  predicate FreshTokens(ops: seq<Op>) {
    forall i, j :: 0 <= i < j < |ops| && ops[i].CreateOp? && ops[j].CreateOp? ==> ops[i].token != ops[j].token
  }

  predicate CreatedIn(ops: seq<Op>, token: string) {
    exists i :: 0 <= i < |ops| && ops[i].CreateOp? && ops[i].token == token
  }

  /** A created token is not granted again, and its readings only get later. */
  lemma {:induction false} NeverReturns(ops: seq<Op>, m: nat, token: string, now: int)
    requires m <= |ops| && FreshTokens(ops) && CreatedIn(ops[..m], token)
    ensures Granted(ops, token) == Granted(ops[..m], token) || Granted(ops, token) == None
    ensures Reading(ops[..m], token, now) <= Reading(ops, token, now)
    decreases |ops|
  {
    if m == |ops| {
      assert ops[..m] == ops;
    } else {
      var prefix, op := ops[..|ops| - 1], ops[|ops| - 1];
      assert prefix[..m] == ops[..m];
      NeverReturns(prefix, m, token, now);
      if op.GetOp? || op.ListOp? {
        NeverReturns(prefix, m, token, Later(now, op.at));
        ReadingGrows(ops[..m], token, now, Later(now, op.at));
      } else if op.CreateOp? {
        var i :| 0 <= i < m && ops[..m][i].CreateOp? && ops[..m][i].token == token;
        assert ops[i].token != op.token;
      }
    }
  }

  /** Once a created token is dead it is dead in every continuation of the run:
      no lookup that reads the clock no earlier will ever find it again. */
  lemma DeadStaysDead(ops: seq<Op>, m: nat, token: string, earlier: int, now: int, online: set<string>)
    requires m <= |ops| && FreshTokens(ops) == true && CreatedIn(ops[..m], token) == true && earlier <= now
    requires Live(Run(ops[..m]), token, earlier) == None
    ensures Live(Run(ops), token, now) == None
    ensures !Get(Run(ops), token, now, online).Found?
  {
    LiveIsGranted(ops[..m], token, earlier);
    LiveIsGranted(ops, token, now);
    NeverReturns(ops, m, token, now);
    ReadingGrows(ops[..m], token, earlier, now);
  }

  /** And once a lookup has met it dead, no later one will find it, not even one
      that read the clock before. */
  lemma MetDeadStaysDead(before: seq<Op>, met: Op, more: seq<Op>, token: string, now: int, online: set<string>)
    requires FreshTokens(before + [met] + more) && CreatedIn(before, token)
    requires met.GetOp? && met.token == token && Live(Run(before), token, met.at) == None
    ensures !Get(Run(before + [met] + more), token, now, online).Found?
  {
    if token != "" {
      MetIsGone(before, met, token);
      StillCreated(before, met, token);
      GoneStaysGone(before + [met], more, token, now, online);
    }
  }

  lemma GoneStaysGone(ops: seq<Op>, more: seq<Op>, token: string, now: int, online: set<string>)
    requires FreshTokens(ops + more) && CreatedIn(ops, token) && token !in Run(ops)
    ensures !Get(Run(ops + more), token, now, online).Found?
  {
    assert (ops + more)[..|ops|] == ops;
    DeadStaysDead(ops + more, |ops|, token, now, now, online);
  }

  lemma MetIsGone(ops: seq<Op>, op: Op, token: string)
    requires op.GetOp? && op.token == token != "" && Live(Run(ops), token, op.at) == None
    ensures token !in Run(ops + [op])
  {
    assert (ops + [op])[..|ops|] == ops;
  }

  lemma StillCreated(ops: seq<Op>, op: Op, token: string)
    requires CreatedIn(ops, token)
    ensures CreatedIn(ops + [op], token)
  {
    var i :| 0 <= i < |ops| && ops[i].CreateOp? && ops[i].token == token;
    assert (ops + [op])[i] == ops[i];
  }

  /** After a device disconnects none of the links it had is live any more. */
  lemma DisconnectKillsLinks(t: Table, device: string, at: int, token: string, now: int)
    ensures var after := Live(AfterDisconnect(t, device, at), token, now);
      after == (if token in t && t[token].controlledId == device then None else Live(t, token, now))
  {
  }

  /** Revoking removes one link of the caller from the table and from what is
      live; the answer is positive even when all stored candidates were dead,
      which is the only case an eager registry would answer differently. */
  lemma RevokeRemovesOne(t: Table, device: string, id: string, token: string, picked: string, other: string, now: int)
    requires picked in t && Revocable(t[picked], device, id, token)
    ensures AfterRevoke(t, device, id, token, picked).Keys == t.Keys - {picked}
    ensures Live(AfterRevoke(t, device, id, token, picked), other, now)
         == if other == picked then None else Live(t, other, now)
    ensures t[picked].controlledId == device
  {
  }

  predicate AnyRevocable(t: Table, device: string, id: string, token: string) {
    exists k :: k in t && Revocable(t[k], device, id, token)
  }

  // ------------------------------------------------- links that linger when dead

  /** The link created at `i` is dead by the time of operation `j`: its device
      disconnected in between, or it has expired. */
  predicate DeadBy(ops: seq<Op>, i: nat, j: nat, now: int)
    requires i < j <= |ops| && ops[i].CreateOp?
  {
    Disconnected(ops, i, j) || now > Share(ops[i]).expiresAt
  }

  predicate Disconnected(ops: seq<Op>, i: nat, j: nat)
    requires i < j <= |ops| && ops[i].CreateOp?
  {
    exists k :: i < k < j && ops[k].DisconnectOp? && ops[k].device == ops[i].device
  }

  /** Operation `j` takes the link created at `i` out of the table: another link
      with its token, a revoke that picks it, or a look-up or listing that finds
      it dead. */
  predicate TakesOut(ops: seq<Op>, i: nat, j: nat)
    requires i < j < |ops| && ops[i].CreateOp?
  {
    match ops[j]
    case CreateOp(_, token, _, _, _, _, _, _) => token == ops[i].token
    case RevokeOp(device, id, token, picked, _) =>
      picked == ops[i].token && Revocable(Share(ops[i]), device, id, token)
    case GetOp(token, at) => token == ops[i].token && token != "" && DeadBy(ops, i, j, at)
    case ListOp(_, at) => DeadBy(ops, i, j, at)
    case DisconnectOp(_, _) => false
  }

  /** The link created at `i` is still in the table after `ops`, dead or not. */
  predicate Stands(ops: seq<Op>, i: nat) {
    i < |ops| && ops[i].CreateOp? && forall j :: i < j < |ops| ==> !TakesOut(ops, i, j)
  }

  lemma StandsBefore(ops: seq<Op>, i: nat)
    requires i < |ops| - 1 && ops[i].CreateOp?
    ensures var prefix := ops[..|ops| - 1];
      Stands(ops, i) <==> Stands(prefix, i) && !TakesOut(ops, i, |ops| - 1)
    ensures Disconnected(ops, i, |ops|) <==>
            Disconnected(ops[..|ops| - 1], i, |ops| - 1)
            || (ops[|ops| - 1].DisconnectOp? && ops[|ops| - 1].device == ops[i].device)
    ensures Disconnected(ops, i, |ops| - 1) == Disconnected(ops[..|ops| - 1], i, |ops| - 1)
  {
    var prefix := ops[..|ops| - 1];
    assert forall k :: 0 <= k < |prefix| ==> prefix[k] == ops[k];
    forall j | i < j < |prefix| ensures TakesOut(ops, i, j) == TakesOut(prefix, i, j) {
      assert Disconnected(ops, i, j) == Disconnected(prefix, i, j);
    }
  }

  /** A standing link is in the table, revoked exactly if its device left. */
  predicate StoredAs(t: Table, ops: seq<Op>, i: nat)
    requires i < |ops| && ops[i].CreateOp?
  {
    && ops[i].token in t
    && t[ops[i].token].(revoked := false, revokedAt := 0) == Share(ops[i])
    && (t[ops[i].token].revoked <==> Disconnected(ops, i, |ops|))
  }

  lemma {:induction false} StandingIsStored(ops: seq<Op>, i: nat)
    requires Stands(ops, i)
    ensures StoredAs(Run(ops), ops, i)
  {
    if i < |ops| - 1 {
      StandsBefore(ops, i);
      StandingIsStored(ops[..|ops| - 1], i);
      StandingStep(ops, i);
    }
  }

  lemma StandingStep(ops: seq<Op>, i: nat)
    requires i < |ops| - 1 && ops[i].CreateOp? && Stands(ops, i)
    requires StoredAs(Run(ops[..|ops| - 1]), ops[..|ops| - 1], i)
    ensures StoredAs(Run(ops), ops, i)
  {
    StandsBefore(ops, i);
    var t, op := Run(ops[..|ops| - 1]), ops[|ops| - 1];
    assert Run(ops) == Apply(t, op);
    assert Dead(t[ops[i].token], op.at) == DeadBy(ops, i, |ops| - 1, op.at);
  }

  lemma {:induction false} StoredIsStanding(ops: seq<Op>, token: string) returns (i: nat)
    requires token in Run(ops)
    ensures Stands(ops, i) && ops[i].token == token
  {
    var prefix, op := ops[..|ops| - 1], ops[|ops| - 1];
    if op.CreateOp? && op.token == token {
      i := |ops| - 1;
    } else {
      i := StoredIsStanding(prefix, token);
      StandsBefore(ops, i);
      StandingIsStored(prefix, i);
      assert Dead(Run(prefix)[token], op.at) == DeadBy(ops, i, |ops| - 1, op.at);
    }
  }

  /** The link created at `i` matches a revoke of `device`. */
  predicate Matches(ops: seq<Op>, i: nat, device: string, id: string, token: string)
    requires i < |ops| && ops[i].CreateOp?
  {
    Revocable(Share(ops[i]), device, id, token)
  }

  /** A matching link of the device was created, has died by a disconnect or by
      expiry, and no later look-up, listing or revoke took it out. */
  predicate Lingers(ops: seq<Op>, i: nat, device: string, id: string, token: string, now: int) {
    Stands(ops, i) && Matches(ops, i, device, id, token) && DeadBy(ops, i, |ops|, now)
  }

  /** A matching link is alive. */
  predicate Lives(ops: seq<Op>, i: nat, device: string, id: string, token: string, now: int) {
    Stands(ops, i) && Matches(ops, i, device, id, token) && !DeadBy(ops, i, |ops|, now)
  }

  /** The relay answers a revoke positively, where a registry that drops links the
      moment they die would not. */
  ghost predicate AnswersForDead(ops: seq<Op>, device: string, id: string, token: string, now: int) {
    && AnyRevocable(Run(ops), device, id, token)
    && !AnyRevocable(Purged(Run(ops), now), device, id, token)
  }

  lemma StoredMatch(ops: seq<Op>, k: string, device: string, id: string, token: string, now: int) returns (i: nat)
    requires k in Run(ops) && Revocable(Run(ops)[k], device, id, token)
    ensures Stands(ops, i) && ops[i].token == k && Matches(ops, i, device, id, token)
    ensures Dead(Run(ops)[k], now) <==> DeadBy(ops, i, |ops|, now)
  {
    i := StoredIsStanding(ops, k);
    StandingIsStored(ops, i);
  }

  lemma StandingMatch(ops: seq<Op>, i: nat, device: string, id: string, token: string, now: int)
    requires Stands(ops, i) && Matches(ops, i, device, id, token)
    ensures ops[i].token in Run(ops) && Revocable(Run(ops)[ops[i].token], device, id, token)
    ensures Dead(Run(ops)[ops[i].token], now) <==> DeadBy(ops, i, |ops|, now)
  {
    StandingIsStored(ops, i);
  }

  lemma LivingIsFound(ops: seq<Op>, i: nat, device: string, id: string, token: string, now: int)
    requires Lives(ops, i, device, id, token, now)
    ensures AnyRevocable(Purged(Run(ops), now), device, id, token)
  {
    StandingMatch(ops, i, device, id, token, now);
    var live := Purged(Run(ops), now);
    assert ops[i].token in live && Revocable(live[ops[i].token], device, id, token);
  }

  lemma LingeringIsFound(ops: seq<Op>, i: nat, device: string, id: string, token: string, now: int)
    requires Lingers(ops, i, device, id, token, now)
    ensures AnyRevocable(Run(ops), device, id, token)
  {
    StandingMatch(ops, i, device, id, token, now);
  }

  lemma FoundIsLiving(ops: seq<Op>, device: string, id: string, token: string, now: int) returns (i: nat)
    requires AnyRevocable(Purged(Run(ops), now), device, id, token)
    ensures Lives(ops, i, device, id, token, now)
    ensures AnyRevocable(Run(ops), device, id, token)
  {
    var live := Purged(Run(ops), now);
    var k :| k in live && Revocable(live[k], device, id, token);
    assert k in Run(ops) && Revocable(Run(ops)[k], device, id, token);
    i := StoredMatch(ops, k, device, id, token, now);
  }

  lemma FoundIsStanding(ops: seq<Op>, device: string, id: string, token: string, now: int) returns (i: nat)
    requires AnyRevocable(Run(ops), device, id, token)
    ensures Lingers(ops, i, device, id, token, now) || Lives(ops, i, device, id, token, now)
  {
    var k :| k in Run(ops) && Revocable(Run(ops)[k], device, id, token);
    i := StoredMatch(ops, k, device, id, token, now);
  }

  /** Over every history, the two registries answer a revoke differently if and
      only if some matching link lingers dead and none is alive. */
  lemma RevokeAnswerDiffersIff(ops: seq<Op>, device: string, id: string, token: string, now: int)
    ensures AnswersForDead(ops, device, id, token, now) <==>
            && (exists i: nat :: Lingers(ops, i, device, id, token, now))
            && (forall i: nat :: !Lives(ops, i, device, id, token, now))
  {
    forall i: nat | Lives(ops, i, device, id, token, now) ensures AnyRevocable(Purged(Run(ops), now), device, id, token) {
      LivingIsFound(ops, i, device, id, token, now);
    }
    forall i: nat | Lingers(ops, i, device, id, token, now) ensures AnyRevocable(Run(ops), device, id, token) {
      LingeringIsFound(ops, i, device, id, token, now);
    }
    if AnyRevocable(Purged(Run(ops), now), device, id, token) {
      var i := FoundIsLiving(ops, device, id, token, now);
    } else if AnyRevocable(Run(ops), device, id, token) {
      var i := FoundIsStanding(ops, device, id, token, now);
    }
  }

  /** Such a history: a link is created, its device leaves, and the same device,
      back again, revokes it. */
  lemma RevokeAfterDisconnect()
    ensures AnswersForDead([CreateOp("i", "t", "d", "n", MODE_VIEW, "", 0, 0), DisconnectOp("d", 1)], "d", "i", "", 2)
  {
    var ops := [CreateOp("i", "t", "d", "n", MODE_VIEW, "", 0, 0), DisconnectOp("d", 1)];
    assert ops[1].DisconnectOp? && ops[1].device == ops[0].device;
    assert Disconnected(ops, 0, 2);
    assert Lingers(ops, 0, "d", "i", "", 2);
    forall i: nat | Stands(ops, i) ensures i == 0 { }
    RevokeAnswerDiffersIff(ops, "d", "i", "", 2);
  }
}
