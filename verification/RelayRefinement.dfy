/** The tables of links and pending requests and the slot of every connection's
    temporary code, as the interleaving relay really treats them, are runs of
    the small machines of `WebShares`, `PendingMap` and `AuthCode`: what is
    proved there about runs holds of every run of the relay. */
module RelayRefinement {
  import opened Protocol
  import opened Registry
  import opened RelaySystem
  import opened RelayInvariants
  import opened RelaySteps
  import opened RelayRuns
  import opened RelayMoves
  import PendingMap
  import WebShares
  import AuthCode

  // ------------------------------------------------- what an event does to each

  predicate IsSharePc(pc: Pc) {
    pc.ShareCreate? || pc.ShareList? || pc.ShareRevoke? || pc.WebCheck?
  }

  /** The operation on the links, if the event is one. */
  function ShareEffect(s: State, e: Event): Option<WebShares.Op> {
    match e
    case Proceed(a, c) =>
      if a in s.agents && IsSharePc(s.agents[a].pc) then Some(ShareOp(s.agents[a], c)) else None
    case FinishClose(a, _, now, _) =>
      if a in s.agents && !s.agents[a].web && s.agents[a].id != ""
      then Some(WebShares.DisconnectOp(s.agents[a].id, now)) else None
    case Peek(token, now) => Some(WebShares.GetOp(token, now))
    case _ => None
  }

  /** The operation on the pending requests. */
  function PendingEffect(s: State, e: Event): Option<PendingMap.Op> {
    match e
    case Proceed(a, c) =>
      if a !in s.agents then None
      else
        var agent := s.agents[a];
        (match agent.pc
         case ReqStore(_, request) =>
           if request.Request? then Some(PendingMap.StoreOp(agent.id, request.target, request.mode, c.now)) else None
         case WebStore(_) => Some(PendingMap.StoreOp(agent.id, agent.controlled, agent.shareMode, c.now))
         case CnfDecline(peerId, _) => Some(PendingMap.ConsumeOp(peerId, agent.id))
         case CnfConsume(peerId, _, _) => Some(PendingMap.ConsumeOp(peerId, agent.id))
         case _ => None)
    case FinishClose(a, _, _, _) =>
      if a in s.agents && (s.agents[a].web || s.agents[a].id != "") then Some(PendingMap.DropOp(s.agents[a].id)) else None
    case _ => None
  }

  /** The operation on the code of connection `x`: its device publishes one, or
      somebody's request is checked against it. */
  function CodeEffect(s: State, e: Event, x: AgentId): Option<AuthCode.Op> {
    match e
    case Recv(a, msg, now) =>
      if a == x && a in s.agents && !s.agents[a].web && s.agents[a].id != ""
         && msg.kind == AuthCodePublish && msg.payload.AuthCode?
      then Some(AuthCode.PublishOp(msg.payload.code, msg.payload.codeTtlMillis, now)) else None
    case Proceed(a, c) =>
      if a in s.agents && s.agents[a].pc.ReqCheck? && s.agents[a].pc.target == x && s.agents[a].pc.request.Request?
      then Some(AuthCode.ValidateOp(s.agents[a].pc.request.authCode, c.now)) else None
    case _ => None
  }

  function SharesAfter(t: WebShares.Table, op: Option<WebShares.Op>): WebShares.Table {
    if op.Some? then WebShares.Apply(t, op.value) else t
  }

  function PendingAfter(t: PendingMap.Table, op: Option<PendingMap.Op>): PendingMap.Table {
    if op.Some? then PendingMap.Apply(t, op.value) else t
  }

  function CodeAfter(slot: AuthCode.Slot, op: Option<AuthCode.Op>): AuthCode.Slot {
    if op.Some? then AuthCode.Apply(slot, op.value) else slot
  }

  ghost predicate Refines(s: State, e: Event, s': State) {
    && s'.tables.shares == SharesAfter(s.tables.shares, ShareEffect(s, e))
    && s'.tables.pending == PendingAfter(s.tables.pending, PendingEffect(s, e))
    && forall x :: CodeOf(s', x) == CodeAfter(CodeOf(s, x), CodeEffect(s, e, x))
  }

  // ------------------------------------------------------------- step by step

  lemma LookupRefines(s: State, a: AgentId, c: Choice)
    requires a in s.agents && Runnable(s, a, c) && IsLookup(s.agents[a].pc)
    ensures Refines(s, Proceed(a, c), Run(s, a, c)) == true
  {
    RunsLookup(s, a, c);
  }

  lemma SharingRefines(s: State, a: AgentId, c: Choice)
    requires a in s.agents && Runnable(s, a, c) && IsSharePc(s.agents[a].pc)
    ensures Refines(s, Proceed(a, c), Run(s, a, c)) == true
  {
    RunsShare(s, a, c);
  }

  lemma ConfirmRefines(s: State, a: AgentId, c: Choice)
    requires a in s.agents && Runnable(s, a, c)
    requires s.agents[a].pc.CnfDecline? || s.agents[a].pc.CnfConsume? || s.agents[a].pc.CnfCreate?
    ensures Refines(s, Proceed(a, c), Run(s, a, c)) == true
  {
    if s.agents[a].pc.CnfCreate? { RunsCreate(s, a, c); } else { RunsConfirm(s, a, c); }
  }

  lemma RequestRefines(s: State, a: AgentId, c: Choice)
    requires a in s.agents && Runnable(s, a, c)
    requires s.agents[a].pc.ReqCheck? || s.agents[a].pc.ReqStore? || s.agents[a].pc.Registering?
    ensures Refines(s, Proceed(a, c), Run(s, a, c)) == true
  {
    if s.agents[a].pc.Registering? { RunsRegister(s, a, c); } else { RunsRequest(s, a, c); }
  }

  lemma OfferRefines(s: State, a: AgentId, c: Choice)
    requires a in s.agents && Runnable(s, a, c)
    requires s.agents[a].pc.Offer? || s.agents[a].pc.FwdTouch? || s.agents[a].pc.CloseOne?
    ensures Refines(s, Proceed(a, c), Run(s, a, c)) == true
  {
    if s.agents[a].pc.CloseOne? { RunsClose(s, a, c); } else { RunsOffer(s, a, c); }
  }

  lemma JoinRefines(s: State, a: AgentId, c: Choice)
    requires a in s.agents && Runnable(s, a, c)
    requires s.agents[a].pc.WebJoin? || s.agents[a].pc.WebStore?
    ensures Refines(s, Proceed(a, c), Run(s, a, c)) == true
  {
    RunsJoin(s, a, c);
  }

  lemma ProceedRefines(s: State, a: AgentId, c: Choice)
    requires a in s.agents && Runnable(s, a, c)
    ensures Refines(s, Proceed(a, c), Run(s, a, c)) == true
  {
    match s.agents[a].pc
    case CnfDecline(_, _) | CnfConsume(_, _, _) | CnfCreate(_, _, _, _) => ConfirmRefines(s, a, c);
    case Registering | ReqCheck(_, _) | ReqStore(_, _) => RequestRefines(s, a, c);
    case Offer(_, _, _) | FwdTouch(_, _) | CloseOne(_) => OfferRefines(s, a, c);
    case WebJoin(_) | WebStore(_) => JoinRefines(s, a, c);
    case ShareCreate(_) | ShareList | ShareRevoke(_) | WebCheck => SharingRefines(s, a, c);
    case _ => LookupRefines(s, a, c);
  }

  lemma ReceiveRefines(s: State, a: AgentId, msg: Envelope, now: int)
    requires a in s.agents
    ensures Refines(s, Recv(a, msg, now), Receive(s, a, msg, now)) == true
  {
  }

  lemma TearDownRefines(s: State, a: AgentId, order: seq<string>, now: int, coins: set<nat>)
    requires a in s.agents && Enumerates(order, Ended(s, a))
    ensures Refines(s, FinishClose(a, order, now, coins), TearDown(s, a, order, now, coins)) == true
  {
  }

  lemma StepRefines(s: State, e: Event)
    requires Enabled(s, e)
    ensures Refines(s, e, RelaySystem.Apply(s, e)) == true
  {
    match e
    case Proceed(a, c) => ProceedRefines(s, a, c);
    case Recv(a, msg, now) => ReceiveRefines(s, a, msg, now);
    case FinishClose(a, order, now, coins) => TearDownRefines(s, a, order, now, coins);
    case _ =>
  }

  // -------------------------------------------------------------------- whole runs

  function More<T>(ops: seq<T>, op: Option<T>): seq<T> {
    if op.Some? then ops + [op.value] else ops
  }

  /** The operations of the first `n` events, in order. */
  function ShareOps(states: seq<State>, events: seq<Event>, n: nat): seq<WebShares.Op>
    requires n <= |events| <= |states|
  {
    if n == 0 then [] else More(ShareOps(states, events, n - 1), ShareEffect(states[n - 1], events[n - 1]))
  }

  function PendingOps(states: seq<State>, events: seq<Event>, n: nat): seq<PendingMap.Op>
    requires n <= |events| <= |states|
  {
    if n == 0 then [] else More(PendingOps(states, events, n - 1), PendingEffect(states[n - 1], events[n - 1]))
  }

  function CodeOps(states: seq<State>, events: seq<Event>, n: nat, x: AgentId): seq<AuthCode.Op>
    requires n <= |events| <= |states|
  {
    if n == 0 then [] else More(CodeOps(states, events, n - 1, x), CodeEffect(states[n - 1], events[n - 1], x))
  }

  lemma MoreRuns(shares: seq<WebShares.Op>, op: Option<WebShares.Op>,
                 pending: seq<PendingMap.Op>, pop: Option<PendingMap.Op>,
                 codes: seq<AuthCode.Op>, cop: Option<AuthCode.Op>)
    ensures WebShares.Run(More(shares, op)) == SharesAfter(WebShares.Run(shares), op)
    ensures PendingMap.Run(More(pending, pop)) == PendingAfter(PendingMap.Run(pending), pop)
    ensures AuthCode.Run(More(codes, cop)) == CodeAfter(AuthCode.Run(codes), cop)
  {
    if op.Some? { assert More(shares, op)[..|shares|] == shares; }
    if pop.Some? { assert More(pending, pop)[..|pending|] == pending; }
    if cop.Some? { assert More(codes, cop)[..|codes|] == codes; }
  }

  ghost predicate RefinesEach(states: seq<State>, events: seq<Event>) {
    && |states| == |events| + 1
    && states[0].tables.shares == map[] && states[0].tables.pending == map[] && states[0].codes == map[]
    && forall i :: 0 <= i < |events| ==> Refines(states[i], events[i], states[i + 1])
  }

  lemma RunRefines(cfg: Config, states: seq<State>, events: seq<Event>)
    requires IsRun(cfg, states, events)
    ensures RefinesEach(states, events)
  {
    forall i | 0 <= i < |events| ensures Refines(states[i], events[i], states[i + 1]) == true {
      StepRefines(states[i], events[i]);
    }
  }

  /** After `n` events the tables are those of the operations so far. */
  predicate Follows(s: State, x: AgentId, shares: seq<WebShares.Op>, pending: seq<PendingMap.Op>, codes: seq<AuthCode.Op>) {
    && s.tables.shares == WebShares.Run(shares) && s.tables.pending == PendingMap.Run(pending)
    && CodeOf(s, x) == AuthCode.Run(codes)
  }

  lemma FollowsOn(s: State, e: Event, s': State, x: AgentId,
                  shares: seq<WebShares.Op>, pending: seq<PendingMap.Op>, codes: seq<AuthCode.Op>)
    requires Refines(s, e, s') && Follows(s, x, shares, pending, codes)
    ensures Follows(s', x, More(shares, ShareEffect(s, e)), More(pending, PendingEffect(s, e)), More(codes, CodeEffect(s, e, x))) == true
  {
    MoreRuns(shares, ShareEffect(s, e), pending, PendingEffect(s, e), codes, CodeEffect(s, e, x));
  }

  lemma {:induction false} TablesFollow(states: seq<State>, events: seq<Event>, n: nat, x: AgentId)
    requires RefinesEach(states, events) && n < |states|
    ensures Follows(states[n], x, ShareOps(states, events, n), PendingOps(states, events, n), CodeOps(states, events, n, x)) == true
  {
    if n > 0 {
      TablesFollow(states, events, n - 1, x);
      assert Refines(states[n - 1], events[n - 1], states[n - 1 + 1]);
      FollowsOn(states[n - 1], events[n - 1], states[n - 1 + 1], x,
                ShareOps(states, events, n - 1), PendingOps(states, events, n - 1), CodeOps(states, events, n - 1, x));
    }
  }

  /** In every run of the relay, however handlers interleave, the links are a run
      of the share machine, the pending requests one of the pending map, and
      each connection's code one of the code slot, over the operations that the
      relay's own steps amount to. */
  lemma TablesAreRuns(cfg: Config, states: seq<State>, events: seq<Event>, n: nat, x: AgentId)
    requires IsRun(cfg, states, events) && n < |states|
    ensures states[n].tables.shares == WebShares.Run(ShareOps(states, events, n))
    ensures states[n].tables.pending == PendingMap.Run(PendingOps(states, events, n))
    ensures CodeOf(states[n], x) == AuthCode.Run(CodeOps(states, events, n, x))
  {
    RunRefines(cfg, states, events);
    TablesFollow(states, events, n, x);
  }

  /** So in every run of the relay a link is live exactly if the history has
      granted it, not taken it back, and it has not expired, by the reading that
      counts: that of the section itself, unless one that read the clock later
      has overtaken it. */
  lemma LinksFollowHistory(cfg: Config, states: seq<State>, events: seq<Event>, n: nat, token: string, now: int)
    requires IsRun(cfg, states, events) && n < |states|
    ensures var ops := ShareOps(states, events, n);
      && WebShares.Live(states[n].tables.shares, token, now) == WebShares.Standing(ops, token, now)
      && ((forall i :: 0 <= i < |ops| && (ops[i].GetOp? || ops[i].ListOp?) ==> ops[i].at <= now) ==>
            WebShares.Live(states[n].tables.shares, token, now) == WebShares.Unexpired(WebShares.Granted(ops, token), now))
  {
    var ops := ShareOps(states, events, n);
    TablesAreRuns(cfg, states, events, n, 0);
    WebShares.LiveIsGranted(ops, token, now);
    if forall i :: 0 <= i < |ops| && (ops[i].GetOp? || ops[i].ListOp?) ==> ops[i].at <= now {
      WebShares.NotOvertaken(ops, token, now);
    }
  }

  lemma {:induction false} OpsGrow(states: seq<State>, events: seq<Event>, m: nat, n: nat)
    requires m <= n <= |events| <= |states|
    ensures ShareOps(states, events, m) <= ShareOps(states, events, n)
  {
    if m < n { OpsGrow(states, events, m, n - 1); }
  }

  lemma ListedWasCreated(ops: seq<WebShares.Op>, token: string)
    requires token in WebShares.Run(ops)
    ensures WebShares.CreatedIn(ops, token)
  {
    var i := WebShares.StoredIsStanding(ops, token);
  }

  lemma StaysCreated(ops: seq<WebShares.Op>, more: seq<WebShares.Op>, token: string)
    requires ops <= more && WebShares.CreatedIn(ops, token)
    ensures WebShares.CreatedIn(more, token)
  {
    var i :| 0 <= i < |ops| && ops[i].CreateOp? && ops[i].token == token;
    assert more[i] == ops[i];
  }

  lemma ListedLinkWasCreated(cfg: Config, states: seq<State>, events: seq<Event>, j: nat, m: nat, token: string)
    requires IsRun(cfg, states, events) && j <= m < |states| && token in states[j].tables.shares
    ensures WebShares.CreatedIn(ShareOps(states, events, m), token)
  {
    TablesAreRuns(cfg, states, events, j, 0);
    OpsGrow(states, events, j, m);
    ListedWasCreated(ShareOps(states, events, j), token);
    StaysCreated(ShareOps(states, events, j), ShareOps(states, events, m), token);
  }

  /** A link that was stored at `j` and is dead at `m` is dead ever after, provided
      that no token is drawn twice in the run. */
  lemma LinkStaysDead(cfg: Config, states: seq<State>, events: seq<Event>, j: nat, m: nat, n: nat,
                      token: string, earlier: int, now: int)
    requires IsRun(cfg, states, events) && j <= m <= n < |states| && earlier <= now
    requires WebShares.FreshTokens(ShareOps(states, events, n))
    requires token in states[j].tables.shares && WebShares.Live(states[m].tables.shares, token, earlier) == None
    ensures WebShares.Live(states[n].tables.shares, token, now) == None
  {
    var ops, before := ShareOps(states, events, n), ShareOps(states, events, m);
    TablesAreRuns(cfg, states, events, m, 0);
    TablesAreRuns(cfg, states, events, n, 0);
    OpsGrow(states, events, m, n);
    ListedLinkWasCreated(cfg, states, events, j, m, token);
    assert ops[..|before|] == before;
    WebShares.DeadStaysDead(ops, |before|, token, earlier, now, {});
  }

  /** A confirm for a pair of NUL-free ids finds just the last request stored for
      that pair, unless it was consumed or one of the two left since. */
  lemma PendingFollowsHistory(cfg: Config, states: seq<State>, events: seq<Event>, n: nat, c: string, d: string)
    requires IsRun(cfg, states, events) && n < |states|
    requires PendingMap.NulFree(c) && PendingMap.NulFree(d)
    ensures PendingMap.Lookup(states[n].tables.pending, c, d) == PendingMap.Latest(PendingOps(states, events, n), c, d)
  {
    TablesAreRuns(cfg, states, events, n, 0);
    PendingMap.LookupIsLatest(PendingOps(states, events, n), c, d);
  }

  /** At any moment the stored code of any connection is empty, or the six digits
      of an earlier publish of its own device, in time. */
  lemma CodesFollowPublishes(cfg: Config, states: seq<State>, events: seq<Event>, n: nat, x: AgentId)
    requires IsRun(cfg, states, events) && n < |states|
    ensures var ops, slot := CodeOps(states, events, n, x), CodeOf(states[n], x);
      slot == AuthCode.EMPTY ||
      (AuthCode.IsSixDigits(slot.code) &&
       exists j :: 0 <= j < |ops| && AuthCode.Publishes(ops[j]) && slot.code == ops[j].code
                && ops[j].at < slot.expiry <= ops[j].at + AuthCode.MAX_TTL)
  {
    TablesAreRuns(cfg, states, events, n, x);
    AuthCode.SlotShape(CodeOps(states, events, n, x));
  }

  // ------------------------------------------------------------------- the gates

  /** `a` runs the check of `request` against the code of `x`: none is stored, or it
      is the one given, in time. */
  predicate PassesCode(s: State, e: Event, a: AgentId, x: AgentId, request: Payload) {
    && e.Proceed? && e.a == a && a in s.agents && s.agents[a].pc == ReqCheck(x, request) && request.Request?
    && (|| x !in s.codes || s.codes[x].code == ""
        || (e.choice.now <= s.codes[x].expiry && request.authCode == s.codes[x].code))
  }

  /** `a` looks its link up: it is stored, not revoked, not expired, and its device
      online. */
  predicate PassesLink(s: State, e: Event, a: AgentId) {
    && e.Proceed? && e.a == a && a in s.agents && s.agents[a].pc.WebCheck?
    && var token := s.agents[a].shareToken;
    && token != "" && token in s.tables.shares
    && !s.tables.shares[token].revoked && e.choice.now <= s.tables.shares[token].expiresAt
    && s.tables.shares[token].controlledId in s.tables.clients
  }

  predicate IsVisitPc(pc: Pc) {
    pc.WebTarget? || pc.WebJoin? || pc.WebStore?
  }

  /** How a handler comes to stand before the store of a request. */
  ghost predicate GateStep(s: State, e: Event, s': State) {
    forall a :: a in s'.agents ==>
      && (s'.agents[a].pc.ReqStore? ==>
            || (a in s.agents && s.agents[a].pc == s'.agents[a].pc)
            || PassesCode(s, e, a, s'.agents[a].pc.target, s'.agents[a].pc.request))
      && (IsVisitPc(s'.agents[a].pc) ==>
            || (a in s.agents && IsVisitPc(s.agents[a].pc))
            || PassesLink(s, e, a))
  }

  lemma LookedGate(t: RelayTables, a: AgentId, agent: Agent)
    requires IsLookup(agent.pc)
    ensures !Looked(t, a, agent).ReqStore?
    ensures IsVisitPc(Looked(t, a, agent)) ==> agent.pc.WebTarget?
  {
  }

  /** Where the section run leads, as far as the gates go. */
  ghost predicate Gated(s: State, a: AgentId, c: Choice, pc: Pc)
    requires a in s.agents
  {
    && (pc.ReqStore? ==> PassesCode(s, Proceed(a, c), a, pc.target, pc.request))
    && (IsVisitPc(pc) ==> IsVisitPc(s.agents[a].pc) || PassesLink(s, Proceed(a, c), a))
  }

  lemma LookupGate(s: State, a: AgentId, c: Choice)
    requires a in s.agents && Runnable(s, a, c) && IsLookup(s.agents[a].pc)
    ensures a in Run(s, a, c).agents && Gated(s, a, c, Run(s, a, c).agents[a].pc) == true
  {
    RunsLookup(s, a, c);
    LookedGate(s.tables, a, s.agents[a]);
  }

  lemma ShareGate(s: State, a: AgentId, c: Choice)
    requires a in s.agents && Runnable(s, a, c) && IsSharePc(s.agents[a].pc)
    ensures a in Run(s, a, c).agents && Gated(s, a, c, Run(s, a, c).agents[a].pc) == true
  {
    RunsShare(s, a, c);
  }

  lemma ConfirmGate(s: State, a: AgentId, c: Choice)
    requires a in s.agents && Runnable(s, a, c)
    requires s.agents[a].pc.CnfDecline? || s.agents[a].pc.CnfConsume? || s.agents[a].pc.CnfCreate?
    ensures a in Run(s, a, c).agents && Gated(s, a, c, Run(s, a, c).agents[a].pc) == true
  {
    if s.agents[a].pc.CnfCreate? { RunsCreate(s, a, c); } else { RunsConfirm(s, a, c); }
  }

  lemma RequestGate(s: State, a: AgentId, c: Choice)
    requires a in s.agents && Runnable(s, a, c)
    requires s.agents[a].pc.ReqCheck? || s.agents[a].pc.ReqStore? || s.agents[a].pc.Registering?
    ensures a in Run(s, a, c).agents && Gated(s, a, c, Run(s, a, c).agents[a].pc) == true
  {
    if s.agents[a].pc.Registering? {
      RunsRegister(s, a, c);
    } else {
      RunsRequest(s, a, c);
      if s.agents[a].pc.ReqCheck? { AuthCode.PassesIff(CodeOf(s, s.agents[a].pc.target), s.agents[a].pc.request.authCode, c.now); }
    }
  }

  lemma OfferGate(s: State, a: AgentId, c: Choice)
    requires a in s.agents && Runnable(s, a, c)
    requires s.agents[a].pc.Offer? || s.agents[a].pc.FwdTouch? || s.agents[a].pc.CloseOne?
    ensures a in Run(s, a, c).agents && Gated(s, a, c, Run(s, a, c).agents[a].pc) == true
  {
    if s.agents[a].pc.CloseOne? { RunsClose(s, a, c); } else { RunsOffer(s, a, c); }
  }

  lemma JoinGate(s: State, a: AgentId, c: Choice)
    requires a in s.agents && Runnable(s, a, c)
    requires s.agents[a].pc.WebJoin? || s.agents[a].pc.WebStore?
    ensures a in Run(s, a, c).agents && Gated(s, a, c, Run(s, a, c).agents[a].pc) == true
  {
    RunsJoin(s, a, c);
  }

  lemma ProceedGate(s: State, a: AgentId, c: Choice)
    requires a in s.agents && Runnable(s, a, c)
    ensures a in Run(s, a, c).agents && Gated(s, a, c, Run(s, a, c).agents[a].pc) == true
  {
    match s.agents[a].pc
    case CnfDecline(_, _) | CnfConsume(_, _, _) | CnfCreate(_, _, _, _) => ConfirmGate(s, a, c);
    case Registering | ReqCheck(_, _) | ReqStore(_, _) => RequestGate(s, a, c);
    case Offer(_, _, _) | FwdTouch(_, _) | CloseOne(_) => OfferGate(s, a, c);
    case WebJoin(_) | WebStore(_) => JoinGate(s, a, c);
    case ShareCreate(_) | ShareList | ShareRevoke(_) | WebCheck => ShareGate(s, a, c);
    case _ => LookupGate(s, a, c);
  }

  lemma EntryGate(cfg: Config, a: AgentId, agent: Agent, msg: Envelope)
    ensures !Entry(cfg, a, agent, msg).ReqStore? && !IsVisitPc(Entry(cfg, a, agent, msg))
  {
  }

  lemma MovedGate(s: State, e: Event, s': State, a: AgentId)
    requires e.Proceed? && e.a == a && MovesOnly(s, s', a) && Gated(s, a, e.choice, s'.agents[a].pc)
    ensures GateStep(s, e, s') == true
  {
  }

  lemma ArrivedGate(s: State, e: Event, s': State, a: AgentId)
    requires a in s'.agents && !s'.agents[a].pc.ReqStore? && !IsVisitPc(s'.agents[a].pc)
    requires forall b :: b in s'.agents && b != a ==> b in s.agents && s'.agents[b].pc == s.agents[b].pc
    ensures GateStep(s, e, s') == true
  {
  }

  lemma StillGate(s: State, e: Event, s': State)
    requires forall b :: b in s'.agents ==> b in s.agents && s'.agents[b].pc == s.agents[b].pc
    ensures GateStep(s, e, s') == true
  {
  }

  lemma ProceedStepGate(s: State, a: AgentId, c: Choice)
    requires a in s.agents && Runnable(s, a, c)
    ensures GateStep(s, Proceed(a, c), Run(s, a, c)) == true
  {
    ProceedGate(s, a, c);
    RunMovesOnly(s, a, c);
    MovedGate(s, Proceed(a, c), Run(s, a, c), a);
  }

  lemma ReceiveGate(s: State, a: AgentId, msg: Envelope, now: int)
    requires a in s.agents
    ensures GateStep(s, Recv(a, msg, now), Receive(s, a, msg, now)) == true
  {
    EntryGate(s.cfg, a, s.agents[a], msg);
    ArrivedGate(s, Recv(a, msg, now), Receive(s, a, msg, now), a);
  }

  lemma ComingGate(s: State, e: Event)
    requires Enabled(s, e) && (e.Connect? || e.Visit?)
    ensures GateStep(s, e, RelaySystem.Apply(s, e)) == true
  {
    ArrivedGate(s, e, RelaySystem.Apply(s, e), e.a);
  }

  lemma OtherGate(s: State, e: Event)
    requires Enabled(s, e) && !e.Connect? && !e.Visit? && !e.Recv? && !e.Proceed?
    ensures GateStep(s, e, RelaySystem.Apply(s, e)) == true
  {
    StillGate(s, e, RelaySystem.Apply(s, e));
  }

  lemma StepGate(s: State, e: Event)
    requires Enabled(s, e)
    ensures GateStep(s, e, RelaySystem.Apply(s, e)) == true
  {
    match e
    case Proceed(a, c) => ProceedStepGate(s, a, c);
    case Recv(a, msg, now) => ReceiveGate(s, a, msg, now);
    case Connect(_) | Visit(_, _, _, _) => ComingGate(s, e);
    case _ => OtherGate(s, e);
  }

  ghost predicate GatesEach(states: seq<State>, events: seq<Event>) {
    && |states| == |events| + 1 && states[0].agents == map[]
    && forall i :: 0 <= i < |events| ==> GateStep(states[i], events[i], states[i + 1])
  }

  lemma RunGates(cfg: Config, states: seq<State>, events: seq<Event>)
    requires IsRun(cfg, states, events)
    ensures GatesEach(states, events)
  {
    forall i | 0 <= i < |events| ensures GateStep(states[i], events[i], states[i + 1]) == true {
      StepGate(states[i], events[i]);
    }
  }

  lemma {:induction false} CodeGateBehind(states: seq<State>, events: seq<Event>, n: nat, a: AgentId) returns (k: nat)
    requires GatesEach(states, events) && n < |states| && a in states[n].agents && states[n].agents[a].pc.ReqStore?
    ensures k < n && PassesCode(states[k], events[k], a, states[n].agents[a].pc.target, states[n].agents[a].pc.request)
    ensures forall j :: k < j <= n ==> a in states[j].agents && states[j].agents[a].pc == states[n].agents[a].pc
  {
    k := n - 1;
    assert GateStep(states[k], events[k], states[k + 1]);
    if !PassesCode(states[k], events[k], a, states[n].agents[a].pc.target, states[n].agents[a].pc.request) {
      k := CodeGateBehind(states, events, n - 1, a);
    }
  }

  lemma {:induction false} LinkGateBehind(states: seq<State>, events: seq<Event>, n: nat, a: AgentId) returns (k: nat)
    requires GatesEach(states, events) && n < |states| && a in states[n].agents && IsVisitPc(states[n].agents[a].pc)
    ensures k < n && PassesLink(states[k], events[k], a)
    ensures forall j :: k < j <= n ==> a in states[j].agents && IsVisitPc(states[j].agents[a].pc)
  {
    k := n - 1;
    assert GateStep(states[k], events[k], states[k + 1]);
    if !PassesLink(states[k], events[k], a) {
      k := LinkGateBehind(states, events, n - 1, a);
    }
  }

  /** No code is stored for `x` after step `k`. */
  predicate NoCodeAfter(states: seq<State>, k: nat, x: AgentId)
    requires k + 1 < |states|
  {
    CodeOf(states[k + 1], x).code == ""
  }

  lemma StandingIsGiven(cfg: Config, states: seq<State>, events: seq<Event>, k: nat, x: AgentId, code: string, now: int)
    requires IsRun(cfg, states, events) && k < |states|
    ensures AuthCode.GivesWhatStands(CodeOps(states, events, k, x), code, now) <==>
            CodeOf(states[k], x).code == "" || (now <= CodeOf(states[k], x).expiry && code == CodeOf(states[k], x).code)
  {
    TablesAreRuns(cfg, states, events, k, x);
    AuthCode.StoredIffStanding(CodeOps(states, events, k, x), code, now);
  }

  /** The check of a request against the code of its target, in any run: the handler
      goes on to store the request if and only if whatever published code stands is
      the one given, in time; otherwise it goes on to its error reply.  A code given
      is gone. */
  lemma CodeGateIff(cfg: Config, states: seq<State>, events: seq<Event>, k: nat, a: AgentId, x: AgentId, request: Payload)
    requires IsRun(cfg, states, events) && k < |events| && events[k].Proceed? && events[k].a == a
    requires a in states[k].agents && states[k].agents[a].pc == ReqCheck(x, request) && request.Request?
    ensures a in states[k + 1].agents
    ensures var passes := AuthCode.GivesWhatStands(CodeOps(states, events, k, x), request.authCode, events[k].choice.now);
      && states[k + 1].agents[a].pc == (
           if passes then ReqStore(x, request)
           else Offer(a, Envelope(ErrorReply, "", RELAY, states[k].agents[a].id, Note("message_failed")), Finish))
      && (passes ==> NoCodeAfter(states, k, x))
  {
    var c, slot := events[k].choice, CodeOf(states[k], x);
    StandingIsGiven(cfg, states, events, k, x, request.authCode, c.now);
    AuthCode.PassesIff(slot, request.authCode, c.now);
    CheckRuns(states[k], a, c);
  }

  lemma CheckRuns(s: State, a: AgentId, c: Choice)
    requires a in s.agents && s.agents[a].pc.ReqCheck? && Runnable(s, a, c) == true
    ensures var pc := s.agents[a].pc; RelaySystem.Run(s, a, c) == Checking(s, a, pc.target, pc.request, c.now)
  {
    RunsRequest(s, a, c);
  }

  lemma PassedIsSpent(cfg: Config, states: seq<State>, events: seq<Event>, k: nat, a: AgentId, x: AgentId, request: Payload)
    requires IsRun(cfg, states, events) && k < |events| && PassesCode(states[k], events[k], a, x, request)
    ensures AuthCode.GivesWhatStands(CodeOps(states, events, k, x), request.authCode, events[k].choice.now)
    ensures NoCodeAfter(states, k, x)
  {
    StandingIsGiven(cfg, states, events, k, x, request.authCode, events[k].choice.now);
    CodeGateIff(cfg, states, events, k, a, x, request);
  }

  /** A device's request is stored only after an earlier step of the same handler has
      checked its code against the target's: either none was stored, or it was the
      one stored, in time, and it is whatever the target had published, in time.  It
      was gone at once, and the handler has stood waiting to store ever since. */
  lemma NoRequestPastTheCode(cfg: Config, states: seq<State>, events: seq<Event>, n: nat, a: AgentId, x: AgentId,
                             request: Payload)
    requires IsRun(cfg, states, events) && n < |events| && events[n].Proceed? && events[n].a == a
    requires a in states[n].agents && states[n].agents[a].pc == ReqStore(x, request)
    ensures exists k: nat :: k < n && PassesCode(states[k], events[k], a, x, request)
              && AuthCode.GivesWhatStands(CodeOps(states, events, k, x), request.authCode, events[k].choice.now)
              && NoCodeAfter(states, k, x)
              && forall j :: k < j <= n ==> a in states[j].agents && states[j].agents[a].pc == ReqStore(x, request)
  {
    RunGates(cfg, states, events);
    var k := CodeGateBehind(states, events, n, a);
    PassedIsSpent(cfg, states, events, k, a, x, request);
  }

  /** A visitor becomes a peer, and its request is stored, only after its link was
      found live with its device online. */
  lemma NoVisitorPastTheLink(cfg: Config, states: seq<State>, events: seq<Event>, n: nat, a: AgentId)
    requires IsRun(cfg, states, events) && n < |events| && events[n].Proceed? && events[n].a == a
    requires a in states[n].agents && (states[n].agents[a].pc.WebJoin? || states[n].agents[a].pc.WebStore?)
    ensures exists k: nat :: k < n && PassesLink(states[k], events[k], a)
              && forall j :: k < j <= n ==> a in states[j].agents && IsVisitPc(states[j].agents[a].pc)
  {
    RunGates(cfg, states, events);
    var k := LinkGateBehind(states, events, n, a);
  }
}
