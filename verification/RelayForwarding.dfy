/** When the relay looked: for whatever it offers to a queue, the session and the
    recipient were found in the tables while the very message was being handled. */
module RelayForwarding {
  import opened Protocol
  import opened Registry
  import opened RelaySystem
  import opened RelayInvariants
  import opened RelaySteps
  import opened RelayRuns
  import opened RelayMoves
  import opened RelayLifeCycle
  import opened RelaySeats

  // ------------------------------------------------------------ what a handler holds

  /** Envelopes that go by the id they name, and not back to the sender itself. */
  predicate IsAddressed(e: Envelope) {
    !IsReply(e.kind) && (e.kind == SessionReady ==> IsControllerReady(e))
  }

  /** The handler holds connection `x`, looked up for the id `to`. */
  predicate Holds(agent: Agent, x: AgentId, to: string) {
    match agent.pc
    case ReqCheck(target, request) => target == x && request.Request? && request.target == to
    case ReqStore(target, request) => target == x && request.Request? && request.target == to
    case WebJoin(target) => target == x && agent.controlled == to
    case WebStore(target) => target == x && agent.controlled == to
    case FwdTouch(target, e) => target == x && e.to == to
    case Offer(target, e, _) => target == x && e.to == to && IsAddressed(e)
    case _ => false
  }

  /** In step `e` the handler of `a` finds `x` listed under `to`. */
  predicate Finds(s: State, e: Event, a: AgentId, x: AgentId, to: string) {
    e.Proceed? && e.a == a && a in s.agents && Listed(s, to, x)
  }

  /** The handler carries the forwarded message `m`, already directed. */
  predicate Carries(agent: Agent, m: Envelope) {
    && IsSessionTraffic(m.kind)
    && match agent.pc
       case FwdClient(e) => e == m
       case FwdWeb(e) => e == m
       case FwdTouch(_, e) => e == m
       case Offer(_, e, _) => e == m
       case _ => false
  }

  /** In step `e` the handler of `a` finds the session that `m` names stored, with
      `a` at the sending end, and directs `m` to the other one; a session that
      allows it, if `m` is input, and from its controller. */
  predicate Directs(s: State, e: Event, a: AgentId, m: Envelope) {
    && e.Proceed? && e.a == a && a in s.agents && m.from == s.agents[a].id && IsStored(s, m)
  }

  predicate IsStored(s: State, m: Envelope) {
    && m.sessionId in s.tables.sessions
    && var session := s.tables.sessions[m.sessionId];
    && (|| (m.from == session.controllerId && m.to == session.controlledId)
        || (m.from == session.controlledId && m.to == session.controllerId && !ControllerOnly(m.kind)))
    && (IsInput(m.kind) ==> session.inputAllowed)
  }

  // -------------------------------------------------------------- one step backwards

  ghost predicate HoldsFrom(s: State, e: Event, a: AgentId, agent: Agent) {
    && (forall x, to :: Holds(agent, x, to) ==>
          a in s.agents && s.agents[a].inbox == agent.inbox && (Holds(s.agents[a], x, to) || Finds(s, e, a, x, to)))
    && (forall m :: Carries(agent, m) ==>
          a in s.agents && s.agents[a].inbox == agent.inbox && (Carries(s.agents[a], m) || Directs(s, e, a, m)))
  }

  /** A position that carries nobody and no forwarded message. */
  predicate EmptyHanded(pc: Pc) {
    match pc
    case ReqCheck(_, _) => false
    case ReqStore(_, _) => false
    case WebJoin(_) => false
    case WebStore(_) => false
    case FwdClient(_) => false
    case FwdWeb(_) => false
    case FwdTouch(_, _) => false
    case Offer(_, e, _) => !IsAddressed(e) && !IsSessionTraffic(e.kind)
    case _ => true
  }

  lemma HoldsNothing(s: State, e: Event, a: AgentId, agent: Agent)
    requires EmptyHanded(agent.pc)
    ensures HoldsFrom(s, e, a, agent) == true
  {
  }

  lemma EntryHoldsNothing(cfg: Config, a: AgentId, agent: Agent, msg: Envelope)
    ensures EmptyHanded(Entry(cfg, a, agent, msg))
  {
  }

  // Where a lookup leads, case by case.

  ghost predicate LooksFrom(s: State, e: Event, a: AgentId, pc: Pc)
    requires a in s.agents
  {
    HoldsFrom(s, e, a, s.agents[a].(pc := pc))
  }

  lemma RoutesTo(s: State, a: AgentId)
    requires a in s.agents && (s.agents[a].pc.Route? || s.agents[a].pc.RouteWeb?)
    requires PcOk(s, a, s.agents[a].pc) == true
    ensures var pc := Looked(s.tables, a, s.agents[a]);
      || EmptyHanded(pc)
      || (pc.Offer? && !IsSessionTraffic(pc.envelope.kind) && Listed(s, pc.envelope.to, pc.target))
  {
  }

  lemma FoundByRoute(s: State, e: Event, a: AgentId, agent: Agent)
    requires e.Proceed? && e.a == a && a in s.agents && agent.inbox == s.agents[a].inbox
    requires agent.pc.Offer? && !IsSessionTraffic(agent.pc.envelope.kind)
    requires Listed(s, agent.pc.envelope.to, agent.pc.target)
    ensures HoldsFrom(s, e, a, agent) == true
  {
  }

  lemma RoutesFrom(s: State, e: Event, a: AgentId)
    requires e.Proceed? && e.a == a && a in s.agents && (s.agents[a].pc.Route? || s.agents[a].pc.RouteWeb?)
    requires PcOk(s, a, s.agents[a].pc) == true
    ensures LooksFrom(s, e, a, Looked(s.tables, a, s.agents[a])) == true
  {
    var agent := s.agents[a].(pc := Looked(s.tables, a, s.agents[a]));
    RoutesTo(s, a);
    if EmptyHanded(agent.pc) { HoldsNothing(s, e, a, agent); } else { FoundByRoute(s, e, a, agent); }
  }

  lemma LocatesFrom(s: State, e: Event, a: AgentId)
    requires e.Proceed? && e.a == a && a in s.agents && (s.agents[a].pc.FwdClient? || s.agents[a].pc.FwdWeb?)
    ensures LooksFrom(s, e, a, Looked(s.tables, a, s.agents[a])) == true
  {
  }

  lemma GuardsFrom(s: State, e: Event, a: AgentId)
    requires e.Proceed? && e.a == a && a in s.agents && s.agents[a].pc.FwdGuard?
    ensures LooksFrom(s, e, a, Looked(s.tables, a, s.agents[a])) == true
  {
  }

  /** The guard's first look at the session still holds at the second. */
  lemma StillAllowed(s: State, a: AgentId, msg: Envelope)
    requires a in s.agents && GuardPassed(s, a, msg) && SessionsCreated(s) && msg.sessionId in s.tables.sessions
    ensures ControllerOnly(msg.kind) ==> s.agents[a].id == s.tables.sessions[msg.sessionId].controllerId
    ensures IsInput(msg.kind) ==> s.tables.sessions[msg.sessionId].inputAllowed
  {
  }

  lemma ReadsFrom(s: State, e: Event, a: AgentId)
    requires e.Proceed? && e.a == a && a in s.agents && s.agents[a].pc.FwdRead? && SessionsCreated(s)
    requires PcOk(s, a, s.agents[a].pc) == true
    ensures LooksFrom(s, e, a, Looked(s.tables, a, s.agents[a])) == true
  {
    var msg := s.agents[a].pc.envelope;
    if msg.sessionId in s.tables.sessions { StillAllowed(s, a, msg); }
  }

  lemma OthersLookFrom(s: State, e: Event, a: AgentId)
    requires e.Proceed? && e.a == a && a in s.agents && IsLookup(s.agents[a].pc) && !IsMailPc(s.agents[a].pc)
    requires !s.agents[a].pc.FwdGuard? && !s.agents[a].pc.FwdRead?
    ensures LooksFrom(s, e, a, Looked(s.tables, a, s.agents[a])) == true
  {
  }

  lemma LookupHolds(s: State, a: AgentId, c: Choice)
    requires a in s.agents && Runnable(s, a, c) && IsLookup(s.agents[a].pc)
    requires PcOk(s, a, s.agents[a].pc) == true && SessionsCreated(s) == true
    ensures a in Run(s, a, c).agents && HoldsFrom(s, Proceed(a, c), a, Run(s, a, c).agents[a]) == true
  {
    RunsLookup(s, a, c);
    var pc, e := s.agents[a].pc, Proceed(a, c);
    if pc.Route? || pc.RouteWeb? {
      RoutesFrom(s, e, a);
    } else if pc.FwdClient? || pc.FwdWeb? {
      LocatesFrom(s, e, a);
    } else if pc.FwdGuard? {
      GuardsFrom(s, e, a);
    } else if pc.FwdRead? {
      ReadsFrom(s, e, a);
    } else {
      OthersLookFrom(s, e, a);
    }
  }

  lemma ConfirmHoldsNothing(s: State, a: AgentId, c: Choice)
    requires a in s.agents && Runnable(s, a, c)
    requires s.agents[a].pc.CnfDecline? || s.agents[a].pc.CnfConsume?
    ensures a in Run(s, a, c).agents && EmptyHanded(Run(s, a, c).agents[a].pc)
  {
    RunsConfirm(s, a, c);
  }

  lemma CreatingEmpty(s: State, a: AgentId, pc: Pc, c: Choice)
    requires a in s.agents && pc.CnfCreate? && pc.confirm.Confirm? && pc.peer in s.agents
    ensures a in Creating(s, a, pc, c).agents && EmptyHanded(Creating(s, a, pc, c).agents[a].pc) == true
  {
  }

  lemma CreateHoldsNothing(s: State, a: AgentId, c: Choice)
    requires a in s.agents && Runnable(s, a, c) && s.agents[a].pc.CnfCreate?
    ensures a in Run(s, a, c).agents && EmptyHanded(Run(s, a, c).agents[a].pc) == true
  {
    RunsCreate(s, a, c);
    CreatingEmpty(s, a, s.agents[a].pc, c);
  }

  lemma RegisterHoldsNothing(s: State, a: AgentId, c: Choice)
    requires a in s.agents && Runnable(s, a, c) && s.agents[a].pc.Registering?
    ensures a in Run(s, a, c).agents && EmptyHanded(Run(s, a, c).agents[a].pc)
  {
    RunsRegister(s, a, c);
  }

  lemma CloseHoldsNothing(s: State, a: AgentId, c: Choice)
    requires a in s.agents && Runnable(s, a, c) && s.agents[a].pc.CloseOne?
    ensures a in Run(s, a, c).agents && EmptyHanded(Run(s, a, c).agents[a].pc)
  {
    RunsClose(s, a, c);
  }

  lemma ShareHoldsNothing(s: State, a: AgentId, c: Choice)
    requires a in s.agents && Runnable(s, a, c)
    requires var pc := s.agents[a].pc; pc.ShareCreate? || pc.ShareList? || pc.ShareRevoke? || pc.WebCheck?
    ensures a in Run(s, a, c).agents && EmptyHanded(Run(s, a, c).agents[a].pc)
  {
    RunsShare(s, a, c);
  }

  lemma CheckHolds(s: State, a: AgentId, c: Choice)
    requires a in s.agents && Runnable(s, a, c) && s.agents[a].pc.ReqCheck?
    ensures a in Run(s, a, c).agents && HoldsFrom(s, Proceed(a, c), a, Run(s, a, c).agents[a]) == true
  {
    RunsRequest(s, a, c);
  }

  lemma StoreHolds(s: State, a: AgentId, c: Choice)
    requires a in s.agents && Runnable(s, a, c) && s.agents[a].pc.ReqStore?
    requires PcOk(s, a, s.agents[a].pc) == true
    ensures a in Run(s, a, c).agents && HoldsFrom(s, Proceed(a, c), a, Run(s, a, c).agents[a]) == true
  {
    RunsRequest(s, a, c);
  }

  lemma JoinHolds(s: State, a: AgentId, c: Choice)
    requires a in s.agents && Runnable(s, a, c) && s.agents[a].pc.WebJoin?
    ensures a in Run(s, a, c).agents && HoldsFrom(s, Proceed(a, c), a, Run(s, a, c).agents[a]) == true
  {
    RunsJoin(s, a, c);
  }

  lemma VisitHolds(s: State, a: AgentId, c: Choice)
    requires a in s.agents && Runnable(s, a, c) && s.agents[a].pc.WebStore?
    ensures a in Run(s, a, c).agents && HoldsFrom(s, Proceed(a, c), a, Run(s, a, c).agents[a]) == true
  {
    RunsJoin(s, a, c);
  }

  /** Once an envelope has been offered, what is queued for oneself is no one
      else's. */
  lemma AfterOfferHoldsNothing(s: State, a: AgentId, agent: Agent, next: Next, ok: bool)
    requires NextOk(s, a, next)
    ensures EmptyHanded(AfterOffer(a, agent, next, ok))
  {
  }

  lemma OfferHolds(s: State, a: AgentId, c: Choice)
    requires a in s.agents && Runnable(s, a, c) && s.agents[a].pc.Offer?
    requires PcOk(s, a, s.agents[a].pc) == true
    ensures a in Run(s, a, c).agents && EmptyHanded(Run(s, a, c).agents[a].pc)
  {
    RunsOffer(s, a, c);
    var pc := s.agents[a].pc;
    AfterOfferHoldsNothing(s, a, s.agents[a], pc.next, Accepts(s.agents, s.mail, pc.target, c.coins));
  }

  lemma TouchHolds(s: State, a: AgentId, c: Choice)
    requires a in s.agents && Runnable(s, a, c) && s.agents[a].pc.FwdTouch?
    requires PcOk(s, a, s.agents[a].pc) == true
    ensures a in Run(s, a, c).agents && HoldsFrom(s, Proceed(a, c), a, Run(s, a, c).agents[a]) == true
  {
    RunsOffer(s, a, c);
  }

  lemma OtherHoldsNothing(s: State, a: AgentId, c: Choice)
    requires a in s.agents && Runnable(s, a, c) == true
    requires var pc := s.agents[a].pc;
      && !IsLookup(pc) && !pc.ReqCheck? && !pc.ReqStore? && !pc.WebJoin? && !pc.WebStore? && !pc.Offer? && !pc.FwdTouch?
    ensures a in Run(s, a, c).agents && EmptyHanded(Run(s, a, c).agents[a].pc)
  {
    match s.agents[a].pc
    case CnfDecline(_, _) | CnfConsume(_, _, _) => ConfirmHoldsNothing(s, a, c);
    case CnfCreate(_, _, _, _) => CreateHoldsNothing(s, a, c);
    case Registering => RegisterHoldsNothing(s, a, c);
    case CloseOne(_) => CloseHoldsNothing(s, a, c);
    case ShareCreate(_) | ShareList | ShareRevoke(_) | WebCheck => ShareHoldsNothing(s, a, c);
  }

  lemma ProceedHolds(s: State, a: AgentId, c: Choice)
    requires a in s.agents && Runnable(s, a, c) == true
    requires PcOk(s, a, s.agents[a].pc) == true && SessionsCreated(s) == true
    ensures a in Run(s, a, c).agents && HoldsFrom(s, Proceed(a, c), a, Run(s, a, c).agents[a]) == true
  {
    var pc := s.agents[a].pc;
    if IsLookup(pc) {
      LookupHolds(s, a, c);
    } else if pc.ReqCheck? {
      CheckHolds(s, a, c);
    } else if pc.ReqStore? {
      StoreHolds(s, a, c);
    } else if pc.WebJoin? {
      JoinHolds(s, a, c);
    } else if pc.WebStore? {
      VisitHolds(s, a, c);
    } else if pc.Offer? {
      OfferHolds(s, a, c);
      HoldsNothing(s, Proceed(a, c), a, Run(s, a, c).agents[a]);
    } else if pc.FwdTouch? {
      TouchHolds(s, a, c);
    } else {
      OtherHoldsNothing(s, a, c);
      HoldsNothing(s, Proceed(a, c), a, Run(s, a, c).agents[a]);
    }
  }

  // ------------------------------------------------------------------- every event

  /** What handlers hold after a step they held before it, or found in it. */
  ghost predicate HoldStep(s: State, e: Event, s': State) {
    && |s.mail.log| <= |s'.mail.log|
    && forall a :: a in s'.agents ==> HoldsFrom(s, e, a, s'.agents[a])
  }

  /** Someone who stands still holds what it held. */
  lemma StillHolds(s: State, e: Event, a: AgentId, agent: Agent)
    requires a in s.agents && s.agents[a].pc == agent.pc && s.agents[a].inbox == agent.inbox
    requires s.agents[a].controlled == agent.controlled
    ensures HoldsFrom(s, e, a, agent) == true
  {
  }

  lemma ProceedHoldStep(s: State, a: AgentId, c: Choice)
    requires a in s.agents && Runnable(s, a, c) == true
    requires PcOk(s, a, s.agents[a].pc) == true && SessionsCreated(s) == true
    requires |s.mail.log| <= |Run(s, a, c).mail.log|
    ensures HoldStep(s, Proceed(a, c), Run(s, a, c)) == true
  {
    ProceedHolds(s, a, c);
    RunMovesOnly(s, a, c);
    var s' := Run(s, a, c);
    forall b | b in s'.agents ensures HoldsFrom(s, Proceed(a, c), b, s'.agents[b]) == true {
      if b != a { StillHolds(s, Proceed(a, c), b, s'.agents[b]); }
    }
  }

  lemma ReceiveHoldStep(s: State, a: AgentId, msg: Envelope, now: int)
    requires a in s.agents
    ensures HoldStep(s, Recv(a, msg, now), Receive(s, a, msg, now)) == true
  {
    var s' := Receive(s, a, msg, now);
    EntryHoldsNothing(s.cfg, a, s.agents[a], msg);
    forall b | b in s'.agents ensures HoldsFrom(s, Recv(a, msg, now), b, s'.agents[b]) == true {
      if b != a { StillHolds(s, Recv(a, msg, now), b, s'.agents[b]); } else { HoldsNothing(s, Recv(a, msg, now), b, s'.agents[b]); }
    }
  }

  lemma OtherHoldStep(s: State, e: Event)
    requires Enabled(s, e) && !e.Proceed? && !e.Recv? && |s.mail.log| <= |RelaySystem.Apply(s, e).mail.log|
    ensures HoldStep(s, e, RelaySystem.Apply(s, e)) == true
  {
    var s' := RelaySystem.Apply(s, e);
    forall b | b in s'.agents ensures HoldsFrom(s, e, b, s'.agents[b]) == true {
      if b in s.agents { StillHolds(s, e, b, s'.agents[b]); } else { HoldsNothing(s, e, b, s'.agents[b]); }
    }
  }

  lemma RunStepHolds(s: State, a: AgentId, c: Choice)
    requires Inv(s) == true && a in s.agents && Runnable(s, a, c) == true
    requires |s.mail.log| <= |Run(s, a, c).mail.log|
    ensures HoldStep(s, Proceed(a, c), Run(s, a, c)) == true
  {
    JustifiedPc(s, a);
    StoredOnes(s);
    ProceedHoldStep(s, a, c);
  }

  lemma StepLonger(s: State, e: Event)
    requires Inv(s) == true && Enabled(s, e) == true
    ensures |s.mail.log| <= |RelaySystem.Apply(s, e).mail.log|
  {
    StepKeeps(s, e);
    StepGrows(s, RelaySystem.Apply(s, e));
    LogLonger(s, RelaySystem.Apply(s, e));
  }

  lemma StepHolds(s: State, e: Event)
    requires Inv(s) == true && Enabled(s, e)
    ensures HoldStep(s, e, RelaySystem.Apply(s, e)) == true
  {
    StepLonger(s, e);
    match e
    case Proceed(a, c) => RunStepHolds(s, a, c);
    case Recv(a, msg, now) => ReceiveHoldStep(s, a, msg, now);
    case _ => OtherHoldStep(s, e);
  }

  lemma LogLonger(s: State, s': State)
    requires Grows(s, s') == true
    ensures |s.mail.log| <= |s'.mail.log|
  {
  }

  lemma StoredOnes(s: State)
    requires Inv(s) == true
    ensures SessionsCreated(s) == true
  {
  }

  // ------------------------------------------------------------ what gets offered

  /** Position `i` of the log is new in this step: the handler of its source offers
      what it stands before, or tells a listed end that its session is closed. */
  predicate OffersAt(s: State, e: Event, m: Sent) {
    && m.source in s.agents && m.index == |s.agents[m.source].inbox|
    && (|| (e.Proceed? && e.a == m.source && s.agents[m.source].pc.Offer?
            && s.agents[m.source].pc.target == m.to && s.agents[m.source].pc.envelope == m.envelope)
        || (m.envelope.kind == SessionClose && Listed(s, m.envelope.to, m.to)))
  }

  ghost predicate OfferStep(s: State, e: Event, s': State) {
    && s.mail.log <= s'.mail.log
    && forall i :: |s.mail.log| <= i < |s'.mail.log| ==> OffersAt(s, e, s'.mail.log[i])
  }

  lemma SilentStep(s: State, e: Event, s': State)
    requires s'.mail.log == s.mail.log
    ensures OfferStep(s, e, s') == true
  {
  }

  lemma OfferedStep(s: State, a: AgentId, c: Choice)
    requires a in s.agents && Runnable(s, a, c) && s.agents[a].pc.Offer?
    ensures OfferStep(s, Proceed(a, c), Run(s, a, c)) == true
  {
    RunsOffer(s, a, c);
    var pc := s.agents[a].pc;
    assert Run(s, a, c).mail.log == s.mail.log + [Sent(pc.target, pc.envelope, a, |s.agents[a].inbox|)];
  }

  /** A close notice goes to whom the tables list, and they listed it before. */
  lemma NoticeListed(s: State, t: RelayTables, session: Session, reason: string, n: nat)
    requires forall d :: d in t.clients ==> d in s.tables.clients && s.tables.clients[d] == t.clients[d]
    requires forall d :: d in t.webPeers ==> d in s.tables.webPeers && s.tables.webPeers[d] == t.webPeers[d]
    requires n < |CloseNotices(t, session, reason)|
    ensures var notice := CloseNotices(t, session, reason)[n];
      notice.envelope.kind == SessionClose && Listed(s, notice.envelope.to, AgentOf(notice.recipient))
  {
    NoticeShape(t, session, reason, n);
  }

  lemma ClosedStep(s: State, a: AgentId, c: Choice)
    requires a in s.agents && Runnable(s, a, c) && s.agents[a].pc.CloseOne? && BoxesOk(s.mail) == true
    ensures OfferStep(s, Proceed(a, c), Run(s, a, c)) == true
  {
    RunsClose(s, a, c);
    var s', sid, reason := Run(s, a, c), s.agents[a].pc.sid, CloseReason(s.agents[a]);
    if sid in s.tables.sessions {
      RemovedPeople(s, s', a, sid, reason, c.coins);
      RemovedShape(s, s', a, sid, reason, c.coins);
      RemovedOffers(s, Proceed(a, c), s', a, sid, reason);
    } else {
      SilentStep(s, Proceed(a, c), s');
    }
  }

  lemma RemovedOffers(s: State, e: Event, s': State, a: AgentId, sid: string, reason: string)
    requires a in s.agents && sid in s.tables.sessions && s'.tables == RemoveSession(s.tables, sid)
    requires s'.mail.log == s.mail.log +
               Addressed(CloseNotices(s'.tables, s.tables.sessions[sid], reason), a, |s.agents[a].inbox|)
    ensures OfferStep(s, e, s') == true
  {
    var notices := CloseNotices(s'.tables, s.tables.sessions[sid], reason);
    forall i | |s.mail.log| <= i < |s'.mail.log| ensures OffersAt(s, e, s'.mail.log[i]) == true {
      NoticeAt(s, s', a, notices, i);
      NoticeListed(s, s'.tables, s.tables.sessions[sid], reason, i - |s.mail.log|);
    }
  }

  lemma TornOffers(s: State, e: Event, s': State, a: AgentId, order: seq<string>)
    requires a in s.agents && (forall sid :: sid in order ==> sid in s.tables.sessions)
    requires forall d :: d in s'.tables.clients ==> d in s.tables.clients && s.tables.clients[d] == s'.tables.clients[d]
    requires forall d :: d in s'.tables.webPeers ==> d in s.tables.webPeers && s.tables.webPeers[d] == s'.tables.webPeers[d]
    requires s'.mail.log == s.mail.log +
               Addressed(AllCloseNotices(s'.tables, s.tables.sessions, order, TearDownReason(s.agents[a])),
                         a, |s.agents[a].inbox|)
    ensures OfferStep(s, e, s') == true
  {
    var reason := TearDownReason(s.agents[a]);
    var notices := AllCloseNotices(s'.tables, s.tables.sessions, order, reason);
    forall i | |s.mail.log| <= i < |s'.mail.log| ensures OffersAt(s, e, s'.mail.log[i]) == true {
      NoticeAt(s, s', a, notices, i);
      var k, m := AllNoticesFrom(s'.tables, s.tables.sessions, order, reason, i - |s.mail.log|);
      NoticeListed(s, s'.tables, s.tables.sessions[order[k]], reason, m);
    }
  }

  lemma TornStep(s: State, a: AgentId, order: seq<string>, now: int, coins: set<nat>)
    requires a in s.agents && Enumerates(order, Ended(s, a)) && BoxesOk(s.mail) == true
    requires EndpointsOnline(s.tables) == true && IdsApart(s) == true
    ensures OfferStep(s, FinishClose(a, order, now, coins), TearDown(s, a, order, now, coins)) == true
  {
    var s' := TearDown(s, a, order, now, coins);
    TornTablesShape(s, a, now);
    TornPeople(s, s', a, order, now, coins);
    TornLog(s, s', a, order, now, coins);
    TornOffers(s, FinishClose(a, order, now, coins), s', a, order);
  }

  lemma LookupSilent(s: State, a: AgentId, c: Choice)
    requires a in s.agents && Runnable(s, a, c) && IsLookup(s.agents[a].pc)
    ensures Run(s, a, c).mail == s.mail
  {
    RunsLookup(s, a, c);
  }

  lemma ConfirmSilent(s: State, a: AgentId, c: Choice)
    requires a in s.agents && Runnable(s, a, c)
    requires s.agents[a].pc.CnfDecline? || s.agents[a].pc.CnfConsume? || s.agents[a].pc.CnfCreate?
    ensures Run(s, a, c).mail == s.mail
  {
    if s.agents[a].pc.CnfCreate? { RunsCreate(s, a, c); } else { RunsConfirm(s, a, c); }
  }

  lemma RequestSilent(s: State, a: AgentId, c: Choice)
    requires a in s.agents && Runnable(s, a, c)
    requires s.agents[a].pc.ReqCheck? || s.agents[a].pc.ReqStore? || s.agents[a].pc.Registering?
    ensures Run(s, a, c).mail == s.mail
  {
    if s.agents[a].pc.Registering? { RunsRegister(s, a, c); } else { RunsRequest(s, a, c); }
  }

  lemma JoinSilent(s: State, a: AgentId, c: Choice)
    requires a in s.agents && Runnable(s, a, c)
    requires s.agents[a].pc.WebJoin? || s.agents[a].pc.WebStore? || s.agents[a].pc.FwdTouch?
    ensures Run(s, a, c).mail == s.mail
  {
    if s.agents[a].pc.FwdTouch? { RunsOffer(s, a, c); } else { RunsJoin(s, a, c); }
  }

  lemma ShareSilent(s: State, a: AgentId, c: Choice)
    requires a in s.agents && Runnable(s, a, c)
    requires s.agents[a].pc.ShareCreate? || s.agents[a].pc.ShareList? || s.agents[a].pc.ShareRevoke? || s.agents[a].pc.WebCheck?
    ensures Run(s, a, c).mail == s.mail
  {
    RunsShare(s, a, c);
  }

  lemma ProceedOffers(s: State, a: AgentId, c: Choice)
    requires a in s.agents && Runnable(s, a, c) == true && BoxesOk(s.mail) == true
    ensures OfferStep(s, Proceed(a, c), Run(s, a, c)) == true
  {
    match s.agents[a].pc
    case Offer(_, _, _) => OfferedStep(s, a, c);
    case CloseOne(_) => ClosedStep(s, a, c);
    case _ => QuietOffers(s, a, c);
  }

  lemma QuietOffers(s: State, a: AgentId, c: Choice)
    requires a in s.agents && Runnable(s, a, c) == true && !s.agents[a].pc.Offer? && !s.agents[a].pc.CloseOne?
    ensures OfferStep(s, Proceed(a, c), Run(s, a, c)) == true
  {
    match s.agents[a].pc {
      case CnfDecline(_, _) | CnfConsume(_, _, _) | CnfCreate(_, _, _, _) => ConfirmSilent(s, a, c);
      case Registering | ReqCheck(_, _) | ReqStore(_, _) => RequestSilent(s, a, c);
      case WebJoin(_) | WebStore(_) | FwdTouch(_, _) => JoinSilent(s, a, c);
      case ShareCreate(_) | ShareList | ShareRevoke(_) | WebCheck => ShareSilent(s, a, c);
      case _ => LookupSilent(s, a, c);
    }
    SilentStep(s, Proceed(a, c), Run(s, a, c));
  }

  lemma StepOffers(s: State, e: Event)
    requires Inv(s) == true && Enabled(s, e)
    ensures OfferStep(s, e, RelaySystem.Apply(s, e)) == true
  {
    TidyTables(s);
    match e
    case Proceed(a, c) => ProceedOffers(s, a, c);
    case FinishClose(a, order, now, coins) => TornStep(s, a, order, now, coins);
    case _ => OtherOffers(s, e);
  }

  lemma OtherOffers(s: State, e: Event)
    requires Enabled(s, e) == true && !e.Proceed? && !e.FinishClose?
    ensures OfferStep(s, e, RelaySystem.Apply(s, e)) == true
  {
    SilentStep(s, e, RelaySystem.Apply(s, e));
  }

  lemma TidyTables(s: State)
    requires Inv(s) == true
    ensures EndpointsOnline(s.tables) == true && IdsApart(s) == true && BoxesOk(s.mail) == true
  {
  }

  // -------------------------------------------------------------------- whole runs

  ghost predicate HoldsEach(states: seq<State>, events: seq<Event>) {
    && |states| == |events| + 1 && states[0].agents == map[] && states[0].mail.log == []
    && (forall i :: 0 <= i < |events| ==> HoldStep(states[i], events[i], states[i + 1]))
    && (forall i :: 0 <= i < |events| ==> OfferStep(states[i], events[i], states[i + 1]))
  }

  lemma RunHolds(cfg: Config, states: seq<State>, events: seq<Event>)
    requires IsRun(cfg, states, events)
    ensures HoldsEach(states, events)
  {
    forall i | 0 <= i < |events|
      ensures HoldStep(states[i], events[i], states[i + 1]) == true && OfferStep(states[i], events[i], states[i + 1]) == true
    {
      RunsKeepInvariant(cfg, states, events, i);
      StepHolds(states[i], events[i]);
      StepOffers(states[i], events[i]);
    }
  }

  /** What is in the log was offered at some step. */
  lemma {:induction false} OfferedAt(states: seq<State>, events: seq<Event>, n: nat, i: nat) returns (k: nat)
    requires HoldsEach(states, events) && n < |states| && i < |states[n].mail.log|
    ensures k < n && |states[k].mail.log| <= i && OffersAt(states[k], events[k], states[n].mail.log[i])
  {
    k := n - 1;
    assert OfferStep(states[k], events[k], states[k + 1]);
    if i < |states[k].mail.log| {
      k := OfferedAt(states, events, n - 1, i);
    }
  }

  /** Who is held was found earlier, while the same message was being handled. */
  lemma {:induction false} FoundEarlier(states: seq<State>, events: seq<Event>, n: nat, a: AgentId, x: AgentId, to: string)
    returns (l: nat)
    requires HoldsEach(states, events) && n < |states| && a in states[n].agents && Holds(states[n].agents[a], x, to)
    ensures l < n && Finds(states[l], events[l], a, x, to)
    ensures states[l].agents[a].inbox == states[n].agents[a].inbox && |states[l].mail.log| <= |states[n].mail.log|
  {
    l := n - 1;
    assert HoldStep(states[l], events[l], states[l + 1]);
    assert HoldsFrom(states[l], events[l], a, states[l + 1].agents[a]);
    if !Finds(states[l], events[l], a, x, to) {
      l := FoundEarlier(states, events, n - 1, a, x, to);
    }
  }

  /** What is carried was directed earlier, while it was being handled. */
  lemma {:induction false} DirectedEarlier(states: seq<State>, events: seq<Event>, n: nat, a: AgentId, m: Envelope)
    returns (g: nat)
    requires HoldsEach(states, events) && n < |states| && a in states[n].agents && Carries(states[n].agents[a], m)
    ensures g < n && Directs(states[g], events[g], a, m)
    ensures states[g].agents[a].inbox == states[n].agents[a].inbox && |states[g].mail.log| <= |states[n].mail.log|
  {
    g := n - 1;
    assert HoldStep(states[g], events[g], states[g + 1]);
    assert HoldsFrom(states[g], events[g], a, states[g + 1].agents[a]);
    if !Directs(states[g], events[g], a, m) {
      g := DirectedEarlier(states, events, n - 1, a, m);
    }
  }

  /** State `s` lies between the receipt of the message that `m`, position `i` of the
      log, answers or passes on, and the offer of `m`. */
  predicate InHandling(s: State, m: Sent, i: nat) {
    m.source in s.agents && |s.agents[m.source].inbox| == m.index && |s.mail.log| <= i
  }

  /** While the message behind position `i` was being handled, the relay listed the
      recipient under the id it is addressed to. */
  predicate HeldItsSeat(states: seq<State>, n: nat, i: nat)
    requires n < |states| && i < |states[n].mail.log|
  {
    var m := states[n].mail.log[i];
    exists l: nat :: l < n && InHandling(states[l], m, i) && Listed(states[l], m.envelope.to, m.to)
  }

  /** While it was being handled, the session that the message names was stored,
      with the sender at one end and the recipient at the other, input allowed if
      it is input, and then its controller the sender. */
  predicate WasStored(states: seq<State>, n: nat, i: nat)
    requires n < |states| && i < |states[n].mail.log|
  {
    var m := states[n].mail.log[i];
    exists g: nat :: g < n && InHandling(states[g], m, i) && IsStored(states[g], m.envelope)
  }

  /** Everything the relay forwards between devices and visitors, and every
      request, decline, close and announcement to a controller, went to a
      connection that the relay listed under the id it is addressed to while it
      handled the message in question. */
  lemma RecipientsHeldTheirSeats(cfg: Config, states: seq<State>, events: seq<Event>, n: nat, i: nat)
    requires IsRun(cfg, states, events) && n < |states| && i < |states[n].mail.log|
    requires IsAddressed(states[n].mail.log[i].envelope)
    ensures HeldItsSeat(states, n, i)
  {
    RunHolds(cfg, states, events);
    HeldInChain(states, events, n, i);
  }

  lemma HeldInChain(states: seq<State>, events: seq<Event>, n: nat, i: nat)
    requires HoldsEach(states, events) && n < |states| && i < |states[n].mail.log|
    requires IsAddressed(states[n].mail.log[i].envelope) == true
    ensures HeldItsSeat(states, n, i) == true
  {
    var m := states[n].mail.log[i];
    var k := OfferedAt(states, events, n, i);
    if states[k].agents[m.source].pc.Offer? && Holds(states[k].agents[m.source], m.to, m.envelope.to) {
      var l := FoundEarlier(states, events, k, m.source, m.to, m.envelope.to);
      assert InHandling(states[l], m, i);
    } else {
      assert InHandling(states[k], m, i);
    }
  }

  lemma StoredInChain(states: seq<State>, events: seq<Event>, n: nat, i: nat)
    requires HoldsEach(states, events) && n < |states| && i < |states[n].mail.log|
    requires IsSessionTraffic(states[n].mail.log[i].envelope.kind)
    ensures WasStored(states, n, i) == true
  {
    var m := states[n].mail.log[i];
    var k := OfferedAt(states, events, n, i);
    var g := DirectedEarlier(states, events, k, m.source, m.envelope);
    assert InHandling(states[g], m, i);
  }

  lemma TrafficIsAddressed(e: Envelope)
    requires IsSessionTraffic(e.kind)
    ensures IsAddressed(e) == true
  {
  }

  /** Forwarded traffic belongs to a session that was stored while the relay handled
      it, and goes to whom the relay listed then: a session closed before the
      message came is not served any more. */
  lemma ServedWhileStored(cfg: Config, states: seq<State>, events: seq<Event>, n: nat, i: nat)
    requires IsRun(cfg, states, events) && n < |states| && i < |states[n].mail.log|
    requires IsSessionTraffic(states[n].mail.log[i].envelope.kind)
    ensures WasStored(states, n, i) == true && HeldItsSeat(states, n, i) == true
  {
    RunHolds(cfg, states, events);
    TrafficIsAddressed(states[n].mail.log[i].envelope);
    StoredInChain(states, events, n, i);
    HeldInChain(states, events, n, i);
  }

  /** A device among the recipients held the seat of that id. */
  lemma DeviceHeldSeat(cfg: Config, states: seq<State>, events: seq<Event>, n: nat, i: nat)
    requires IsRun(cfg, states, events) && n < |states| && i < |states[n].mail.log|
    requires HeldItsSeat(states, n, i) == true
    requires states[n].mail.log[i].to in states[n].agents && !states[n].agents[states[n].mail.log[i].to].web
    ensures var m := states[n].mail.log[i];
      exists l: nat :: l < n && InHandling(states[l], m, i) && Seated(states[l], m.envelope.to, m.to)
  {
    var m := states[n].mail.log[i];
    var l: nat :| l < n && InHandling(states[l], m, i) && Listed(states[l], m.envelope.to, m.to);
    ListedDevice(cfg, states, events, l, n, m.envelope.to, m.to);
  }
}
