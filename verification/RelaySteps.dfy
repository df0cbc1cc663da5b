/** Every event of the relay keeps the invariant: one lemma per kind of step. */
module RelaySteps {
  import opened Protocol
  import opened Registry
  import opened RelaySystem
  import opened RelayInvariants
  import PendingMap
  import WebShares
  import AuthCode

  // -------------------------------------------------------- shapes of a step

  /** `a` moved on to `pc`; mail and creations are as before. */
  ghost predicate Moved(s: State, s': State, a: AgentId, pc: Pc) {
    && a in s.agents
    && s' == s.(agents := s.agents[a := s.agents[a].(pc := pc)], tables := s'.tables, codes := s'.codes,
                requests := s'.requests, live := s'.live, taken := s'.taken, seated := s'.seated)
    && s.requests <= s'.requests && s.taken <= s'.taken && s.seated <= s'.seated && NewSeats(s, s', a)
    && s'.tables.sessions.Keys == s.tables.sessions.Keys
  }

  lemma MovedGrows(s: State, s': State, a: AgentId, pc: Pc, d: AgentId)
    requires Moved(s, s', a, pc)
    ensures Grows(s, s') && NewMail(s, s', d) && NewCreations(s, s', d) && SameSelf(s, s', a) && QuietFor(s, s', a)
  {
  }

  lemma MovedLawful(s: State, s': State, a: AgentId, pc: Pc)
    requires Moved(s, s', a, pc)
    ensures Grows(s, s') && FallStep(s, s') && EndStep(s, s')
  {
  }

  ghost predicate Unshared(s: State, a: AgentId, pc: Pc) {
    pc.CnfCreate? ==> forall b :: b in s.agents && b != a ==>
      NoShared(pc, s.agents[b].pc) && NoShared(s.agents[b].pc, pc)
  }

  lemma MovedReady(s: State, s': State, a: AgentId, pc: Pc)
    requires Moved(s, s', a, pc) == true && BoxesOk(s.mail) == true
    requires TablesOk(s') == true && RequestsOk(s') == true && SessionsCreated(s') == true
    ensures LocalStep(s, s', a) == true && TablesReady(s') == true && CreationsReady(s, s') == true
  {
    MovedGrows(s, s', a, pc, a);
  }

  lemma MovedPosition(s: State, s': State, a: AgentId, pc: Pc)
    requires Moved(s, s', a, pc) == true && PcsOk(s) == true
    requires PcOk(s', a, pc) == true && Unshared(s, a, pc) == true
    ensures PositionReady(s, s', a) == true
  {
  }

  lemma SelfStep(s: State, s': State, a: AgentId, pc: Pc)
    requires Inv(s) == true && Moved(s, s', a, pc) == true
    requires TablesOk(s') == true && RequestsOk(s') == true && SessionsCreated(s') == true
    requires PcOk(s', a, pc) == true && Unshared(s, a, pc) == true && SeatStep(s, s') == true
    ensures Keeps(s, s') == true
  {
    MovedReady(s, s', a, pc);
    MovedPosition(s, s', a, pc);
    Assemble(s, s', a);
    MovedLawful(s, s', a, pc);
  }

  /** A position justified before the move is justified after it. */
  lemma MovedPc(s: State, s': State, a: AgentId, pc: Pc)
    requires Moved(s, s', a, pc) && PcOk(s, a, pc) == true && !pc.CnfCreate? && !pc.Registering?
    ensures PcOk(s', a, pc) == true
  {
    MovedGrows(s, s', a, pc, a + 1);
    PcGrows(s, s', a + 1, a, pc);
  }

  /** Nobody's identity or inbox changes. */
  predicate SamePeople(s: State, s': State) {
    && s'.agents.Keys == s.agents.Keys && s'.cfg == s.cfg
    && (forall b :: b in s.agents ==>
          && s'.agents[b].web == s.agents[b].web && s'.agents[b].id == s.agents[b].id
          && s'.agents[b].inbox == s.agents[b].inbox)
  }

  lemma SeatsKept(s: State, s': State)
    requires SamePeople(s, s') == true && ListedOk(s) == true && IdsApart(s) == true && s'.seated == s.seated
    requires s'.tables.clients == s.tables.clients && s'.tables.webPeers == s.tables.webPeers
    ensures ListedOk(s') == true && IdsApart(s') == true
  {
  }

  lemma RequestsKept(s: State, s': State)
    requires SamePeople(s, s') == true && RequestsOk(s) == true
    requires s'.requests == s.requests && s'.live == s.live && s'.taken == s.taken
    requires s'.tables.pending == s.tables.pending
    ensures RequestsOk(s') == true
  {
  }

  lemma MovedTables(s: State, s': State, a: AgentId, pc: Pc)
    requires Moved(s, s', a, pc) && TablesOk(s) && EndpointsOnline(s'.tables)
    requires s'.tables.clients == s.tables.clients && s'.tables.webPeers == s.tables.webPeers && s'.seated == s.seated
    ensures TablesOk(s') && SeatStep(s, s')
  {
    SeatsKept(s, s');
  }

  lemma MovedRequests(s: State, s': State, a: AgentId, pc: Pc)
    requires Moved(s, s', a, pc) && RequestsOk(s)
    requires s'.requests == s.requests && s'.live == s.live && s'.taken == s.taken
    requires s'.tables.pending == s.tables.pending
    ensures RequestsOk(s')
  {
    RequestsKept(s, s');
  }

  lemma GotoReady(s: State, s': State, a: AgentId, pc: Pc)
    requires a in s.agents && TablesOk(s) && RequestsOk(s) && SessionsCreated(s) && s' == Goto(s.(codes := s'.codes), a, pc)
    ensures Moved(s, s', a, pc) == true && SeatStep(s, s') == true
    ensures TablesOk(s') == true && RequestsOk(s') == true && SessionsCreated(s') == true
  {
    MovedTables(s, s', a, pc);
    MovedRequests(s, s', a, pc);
  }

  /** Only the position of the handler (and maybe a stored code) changes. */
  lemma GotoKeeps(s: State, s': State, a: AgentId, pc: Pc)
    requires Inv(s) == true && a in s.agents && s' == Goto(s.(codes := s'.codes), a, pc)
    requires PcOk(s, a, pc) == true && !pc.CnfCreate? && !pc.Registering?
    ensures Keeps(s, s') == true
  {
    GotoReady(s, s', a, pc);
    MovedPc(s, s', a, pc);
    SelfStep(s, s', a, pc);
  }

  lemma RefusedOk(s: State, a: AgentId, agent: Agent)
    requires a in s.agents
    ensures PcOk(s, a, Failing(a, agent)) == true
  {
  }

  lemma RefusedKeeps(s: State, a: AgentId)
    requires Inv(s) == true && a in s.agents
    ensures Keeps(s, Goto(s, a, Failing(a, s.agents[a]))) == true
  {
    RefusedOk(s, a, s.agents[a]);
    GotoKeeps(s, Goto(s, a, Failing(a, s.agents[a])), a, Failing(a, s.agents[a]));
  }

  // ------------------------------------------------------------------- lookups

  lemma ListedPeers(s: State, id: string)
    requires TablesOk(s)
    ensures id in s.tables.clients ==> IsSeated(s, s.tables.clients[id], id)
    ensures id in s.tables.webPeers ==> IsSeated(s, s.tables.webPeers[id], id)
  {
  }

  /** A session found in the table is a created one, endpoints and all. */
  lemma FoundSession(s: State, sid: string)
    requires CreatedOk(s) && sid in s.tables.sessions
    ensures sid in s.created && CreationOk(s, sid)
    ensures SameSession(s.tables.sessions[sid], s.created[sid].session)
  {
  }

  // What a lookup found justifies the next position, case by case.

  lemma FoundTargetOk(s: State, a: AgentId, request: Payload)
    requires TablesOk(s) == true && a in s.agents && IsDevice(s, a, s.agents[a].id) && Requesting(s.agents[a], request)
    ensures PcOk(s, a, FoundTarget(s.tables, a, s.agents[a], request)) == true
  {
    ListedPeers(s, request.target);
    RefusedOk(s, a, s.agents[a]);
  }

  lemma FoundClientOk(s: State, a: AgentId, peerId: string, confirm: Payload)
    requires TablesOk(s) == true && a in s.agents && Confirming(s, a, peerId, confirm) == true
    ensures PcOk(s, a, FoundClient(s.tables, peerId, confirm)) == true
  {
    ListedPeers(s, peerId);
  }

  lemma FoundPeerOk(s: State, a: AgentId, peerId: string, confirm: Payload, client: Option<AgentId>)
    requires TablesOk(s) == true && a in s.agents && Confirming(s, a, peerId, confirm) == true
    requires client.Some? ==> IsSeated(s, client.value, peerId)
    ensures PcOk(s, a, FoundPeer(s.tables, a, s.agents[a], peerId, confirm, client)) == true
  {
    ListedPeers(s, peerId);
    RefusedOk(s, a, s.agents[a]);
  }

  lemma OfferFound(s: State, a: AgentId, e: Envelope, next: Next, x: AgentId)
    requires RouteOk(s, a, e, next) == true && IsSeated(s, x, e.to)
    ensures OfferOk(s, a, x, e, next) == true
  {
  }

  lemma UndeliveredOk(s: State, a: AgentId, next: Next)
    requires a in s.agents && NextOk(s, a, next) == true
    ensures PcOk(s, a, Undelivered(a, s.agents[a], next)) == true
  {
    RefusedOk(s, a, s.agents[a]);
    if next.ThenOwn? { assert OfferOk(s, a, a, next.own, Report); }
  }

  lemma OfferPc(s: State, a: AgentId, x: AgentId, e: Envelope, next: Next)
    requires OfferOk(s, a, x, e, next) == true
    ensures PcOk(s, a, Offer(x, e, next)) == true
  {
  }

  lemma RouteWebPc(s: State, a: AgentId, e: Envelope, next: Next)
    requires RouteOk(s, a, e, next) == true
    ensures PcOk(s, a, RouteWeb(e, next)) == true
  {
  }

  lemma RoutedOk(s: State, a: AgentId, e: Envelope, next: Next)
    requires TablesOk(s) == true && a in s.agents && RouteOk(s, a, e, next) == true
    ensures PcOk(s, a, Routed(s.tables, e, next)) == true
  {
    ListedPeers(s, e.to);
    if e.to in s.tables.clients {
      OfferFound(s, a, e, next, s.tables.clients[e.to]);
      OfferPc(s, a, s.tables.clients[e.to], e, next);
    } else {
      RouteWebPc(s, a, e, next);
    }
  }

  lemma RoutedWebOk(s: State, a: AgentId, e: Envelope, next: Next)
    requires TablesOk(s) == true && a in s.agents && RouteOk(s, a, e, next) == true
    ensures PcOk(s, a, RoutedWeb(s.tables, a, s.agents[a], e, next)) == true
  {
    ListedPeers(s, e.to);
    if e.to in s.tables.webPeers {
      OfferFound(s, a, e, next, s.tables.webPeers[e.to]);
      OfferPc(s, a, s.tables.webPeers[e.to], e, next);
    } else {
      UndeliveredOk(s, a, next);
    }
  }

  lemma ForwardFound(s: State, a: AgentId, e: Envelope, x: AgentId)
    requires ForwardOk(s, a, e) == true && IsSeated(s, x, e.to)
    ensures RecipientOk(s, x, a, e) == true
  {
  }

  lemma TouchPc(s: State, a: AgentId, e: Envelope, x: AgentId)
    requires ForwardOk(s, a, e) == true && IsSeated(s, x, e.to)
    ensures PcOk(s, a, FwdTouch(x, e)) == true
  {
    ForwardFound(s, a, e, x);
  }

  lemma ForwardWebPc(s: State, a: AgentId, e: Envelope)
    requires ForwardOk(s, a, e) == true
    ensures PcOk(s, a, FwdWeb(e)) == true
  {
  }

  lemma LocatedOk(s: State, a: AgentId, e: Envelope)
    requires TablesOk(s) == true && a in s.agents && ForwardOk(s, a, e) == true
    ensures PcOk(s, a, Located(s.tables, a, s.agents[a], e)) == true
  {
    ListedPeers(s, e.to);
    RefusedOk(s, a, s.agents[a]);
    ForwardWebPc(s, a, e);
    if e.to in s.tables.clients { TouchPc(s, a, e, s.tables.clients[e.to]); }
  }

  lemma LocatedWebOk(s: State, a: AgentId, e: Envelope)
    requires TablesOk(s) == true && a in s.agents && ForwardOk(s, a, e) == true
    ensures PcOk(s, a, LocatedWeb(s.tables, a, s.agents[a], e)) == true
  {
    ListedPeers(s, e.to);
    RefusedOk(s, a, s.agents[a]);
    if e.to in s.tables.webPeers { TouchPc(s, a, e, s.tables.webPeers[e.to]); }
  }

  lemma GuardOk(s: State, a: AgentId, msg: Envelope, session: Session)
    requires a in s.agents && Forwarding(s, a, msg) == true
    requires msg.sessionId in s.created && CreationOk(s, msg.sessionId) == true
    requires SameSession(session, s.created[msg.sessionId].session)
    requires IsInput(msg.kind) ==> session.inputAllowed
    requires s.agents[a].id == session.controllerId
    ensures GuardPassed(s, a, msg) == true
    ensures ForwardOk(s, a, Stamped(msg, s.agents[a].id, session.controlledId)) == true
  {
  }

  lemma ForwardPc(s: State, a: AgentId, e: Envelope)
    requires ForwardOk(s, a, e) == true
    ensures PcOk(s, a, FwdClient(e)) == true
  {
  }

  lemma ReadPc(s: State, a: AgentId, msg: Envelope)
    requires a in s.agents && Forwarding(s, a, msg) == true && GuardPassed(s, a, msg) == true && !s.agents[a].web
    ensures PcOk(s, a, FwdRead(msg)) == true
  {
  }

  lemma GuardedPass(s: State, a: AgentId, msg: Envelope, session: Session)
    requires a in s.agents && msg.sessionId in s.tables.sessions && session == s.tables.sessions[msg.sessionId]
    requires IsInput(msg.kind) ==> session.inputAllowed
    requires s.agents[a].id == session.controllerId
    ensures Guarded(s.tables, a, s.agents[a], msg)
         == if s.agents[a].web then FwdClient(Stamped(msg, s.agents[a].id, session.controlledId)) else FwdRead(msg)
  {
  }

  lemma GuardedFail(s: State, a: AgentId, msg: Envelope)
    requires a in s.agents
    requires msg.sessionId in s.tables.sessions ==>
               var session := s.tables.sessions[msg.sessionId];
               (IsInput(msg.kind) && !session.inputAllowed) || s.agents[a].id != session.controllerId
    ensures Guarded(s.tables, a, s.agents[a], msg) == Failing(a, s.agents[a])
  {
  }

  lemma GuardedOk(s: State, a: AgentId, msg: Envelope)
    requires CreatedOk(s) == true && a in s.agents && Forwarding(s, a, msg) == true && ControllerOnly(msg.kind)
    ensures PcOk(s, a, Guarded(s.tables, a, s.agents[a], msg)) == true
  {
    if msg.sessionId in s.tables.sessions
       && (IsInput(msg.kind) ==> s.tables.sessions[msg.sessionId].inputAllowed)
       && s.agents[a].id == s.tables.sessions[msg.sessionId].controllerId {
      var session := s.tables.sessions[msg.sessionId];
      FoundSession(s, msg.sessionId);
      GuardOk(s, a, msg, session);
      GuardedPass(s, a, msg, session);
      if s.agents[a].web {
        ForwardPc(s, a, Stamped(msg, s.agents[a].id, session.controlledId));
      } else {
        ReadPc(s, a, msg);
      }
    } else {
      GuardedFail(s, a, msg);
      RefusedOk(s, a, s.agents[a]);
    }
  }

  lemma DirectionOk(s: State, a: AgentId, msg: Envelope, session: Session, to: string)
    requires a in s.agents && Forwarding(s, a, msg) == true && GuardPassed(s, a, msg) == true
    requires msg.sessionId in s.created && CreationOk(s, msg.sessionId) == true
    requires SameSession(session, s.created[msg.sessionId].session)
    requires || (s.agents[a].id == session.controllerId && to == session.controlledId)
             || (s.agents[a].id == session.controlledId != session.controllerId && to == session.controllerId)
    ensures ForwardOk(s, a, Stamped(msg, s.agents[a].id, to)) == true
  {
  }

  /** Where the message of an endpoint goes: to the other one. */
  lemma DirectedShape(s: State, a: AgentId, msg: Envelope)
    requires a in s.agents
    ensures var pc := Directed(s.tables, a, s.agents[a], msg);
      || pc == Failing(a, s.agents[a])
      || (&& msg.sessionId in s.tables.sessions
          && var session := s.tables.sessions[msg.sessionId];
          && pc.FwdClient? && pc.envelope == Stamped(msg, s.agents[a].id, pc.envelope.to)
          && (|| (s.agents[a].id == session.controllerId && pc.envelope.to == session.controlledId)
              || (s.agents[a].id == session.controlledId != session.controllerId && pc.envelope.to == session.controllerId)))
  {
  }

  lemma DirectedOk(s: State, a: AgentId, msg: Envelope)
    requires CreatedOk(s) == true && a in s.agents && Forwarding(s, a, msg) == true && GuardPassed(s, a, msg) == true
    ensures PcOk(s, a, Directed(s.tables, a, s.agents[a], msg)) == true
  {
    var pc := Directed(s.tables, a, s.agents[a], msg);
    DirectedShape(s, a, msg);
    if pc == Failing(a, s.agents[a]) {
      RefusedOk(s, a, s.agents[a]);
    } else {
      FoundSession(s, msg.sessionId);
      DirectionOk(s, a, msg, s.tables.sessions[msg.sessionId], pc.envelope.to);
      ForwardPc(s, a, pc.envelope);
    }
  }

  lemma FoundControlledOk(s: State, a: AgentId)
    requires TablesOk(s) == true && a in s.agents && Visiting(s.agents[a])
    ensures PcOk(s, a, FoundControlled(s.tables, a, s.agents[a])) == true
  {
    ListedPeers(s, s.agents[a].controlled);
    RefusedOk(s, a, s.agents[a]);
  }

  lemma LookedConfirmOk(s: State, a: AgentId)
    requires TablesOk(s) == true && CreatedOk(s) == true && a in s.agents && PcOk(s, a, s.agents[a].pc) == true
    requires IsLookup(s.agents[a].pc) && !IsMailPc(s.agents[a].pc)
    ensures PcOk(s, a, Looked(s.tables, a, s.agents[a])) == true
  {
    match s.agents[a].pc
    case ReqLookup(request) => FoundTargetOk(s, a, request);
    case CnfClient(peerId, confirm) => FoundClientOk(s, a, peerId, confirm);
    case CnfWeb(peerId, confirm, client) => FoundPeerOk(s, a, peerId, confirm, client);
    case FwdGuard(msg) => GuardedOk(s, a, msg);
    case FwdRead(msg) => DirectedOk(s, a, msg);
    case WebTarget => FoundControlledOk(s, a);
    case ClosingOther(_) =>
  }

  lemma LookedMailOk(s: State, a: AgentId)
    requires TablesOk(s) == true && a in s.agents && PcOk(s, a, s.agents[a].pc) == true
    requires IsLookup(s.agents[a].pc) && IsMailPc(s.agents[a].pc)
    ensures PcOk(s, a, Looked(s.tables, a, s.agents[a])) == true
  {
    match s.agents[a].pc
    case Route(e, next) => RoutedOk(s, a, e, next);
    case RouteWeb(e, next) => RoutedWebOk(s, a, e, next);
    case FwdClient(e) => LocatedOk(s, a, e);
    case FwdWeb(e) => LocatedWebOk(s, a, e);
  }

  lemma RunsLookup(s: State, a: AgentId, c: Choice)
    requires a in s.agents && IsLookup(s.agents[a].pc) && Runnable(s, a, c)
    ensures Run(s, a, c) == Goto(s, a, Looked(s.tables, a, s.agents[a]))
  {
  }

  lemma LookedNotCreate(t: RelayTables, a: AgentId, agent: Agent)
    requires IsLookup(agent.pc)
    ensures !Looked(t, a, agent).CnfCreate? && !Looked(t, a, agent).Registering?
  {
  }

  lemma JustifiedPc(s: State, a: AgentId)
    requires Inv(s) == true && a in s.agents
    ensures PcOk(s, a, s.agents[a].pc) == true
  {
  }

  lemma LookedOk(s: State, a: AgentId)
    requires Inv(s) == true && a in s.agents && IsLookup(s.agents[a].pc)
    ensures PcOk(s, a, Looked(s.tables, a, s.agents[a])) == true
  {
    JustifiedPc(s, a);
    if IsMailPc(s.agents[a].pc) { LookedMailOk(s, a); } else { LookedConfirmOk(s, a); }
  }

  lemma LookupKeeps(s: State, a: AgentId, c: Choice)
    requires Inv(s) == true && a in s.agents && IsLookup(s.agents[a].pc) && Runnable(s, a, c)
    ensures Keeps(s, Run(s, a, c)) == true
  {
    var pc := Looked(s.tables, a, s.agents[a]);
    LookedOk(s, a);
    LookedNotCreate(s.tables, a, s.agents[a]);
    RunsLookup(s, a, c);
    GotoKeeps(s, Goto(s, a, pc), a, pc);
  }

  // ------------------------------------------------------------- registration

  lemma OneMoreListed(s: State, s': State, a: AgentId)
    requires SamePeople(s, s') && ListedOk(s) && a in s.agents && IsDevice(s, a, s.agents[a].id)
    requires s'.tables == Register(s.tables, s.agents[a].id, a) && s'.seated == s.seated + {(s.agents[a].id, a)}
    ensures ListedOk(s') == true
  {
  }

  lemma OneMoreSeated(s: State, s': State, a: AgentId)
    requires a in s.agents && a in s'.agents && s.agents[a].pc.Registering? && !s'.agents[a].pc.Registering?
    requires s'.tables == Register(s.tables, s.agents[a].id, a) && s'.seated == s.seated + {(s.agents[a].id, a)}
    requires !Full(s.tables, s.cfg.maxClients)
    ensures SeatStep(s, s') == true
  {
  }

  lemma MovedPeople(s: State, s': State, a: AgentId, pc: Pc)
    requires Moved(s, s', a, pc)
    ensures SamePeople(s, s') == true && s'.agents[a].pc == pc
  {
  }

  lemma RegisteredListed(s: State, s': State, a: AgentId, pc: Pc)
    requires Moved(s, s', a, pc) == true && ListedOk(s) == true && IsDevice(s, a, s.agents[a].id)
    requires s'.tables == Register(s.tables, s.agents[a].id, a) && s'.seated == s.seated + {(s.agents[a].id, a)}
    requires s.agents[a].pc.Registering? && !pc.Registering? && !Full(s.tables, s.cfg.maxClients)
    ensures ListedOk(s') == true && SeatStep(s, s') == true
  {
    MovedPeople(s, s', a, pc);
    OneMoreListed(s, s', a);
    OneMoreSeated(s, s', a);
  }

  lemma MovedIdsApart(s: State, s': State, a: AgentId, pc: Pc)
    requires Moved(s, s', a, pc) && IdsApart(s)
    ensures IdsApart(s')
  {
  }

  lemma RegisterKeepsEndpoints(t: RelayTables, device: string, a: AgentId)
    requires EndpointsOnline(t)
    ensures EndpointsOnline(Register(t, device, a))
  {
  }

  lemma AdmittingKeeps(s: State, a: AgentId)
    requires Inv(s) == true && a in s.agents && IsDevice(s, a, s.agents[a].id) && s.agents[a].pc.Registering?
    ensures Keeps(s, Admitting(s, a)) == true
  {
    if Full(s.tables, s.cfg.maxClients) {
      RefusedKeeps(s, a);
    } else {
      AdmittedKeeps(s, a);
    }
  }

  lemma AdmittedPc(s: State, a: AgentId, id: string)
    requires ListedOk(s) && a in s.agents
    ensures Displaced(s.tables, id, a).Some? ==> PcOk(s, a, ClosingOther(Displaced(s.tables, id, a).value)) == true
    ensures PcOk(s, a, Idle) == true
  {
  }

  lemma AdmittedReady(s: State, s': State, a: AgentId)
    requires a in s.agents && TablesOk(s) && RequestsOk(s) && SessionsCreated(s)
    requires IsDevice(s, a, s.agents[a].id) && !Full(s.tables, s.cfg.maxClients)
    requires s.agents[a].pc.Registering? && s' == Admitting(s, a)
    ensures Moved(s, s', a, s'.agents[a].pc) == true && SeatStep(s, s') == true
    ensures TablesOk(s') == true && RequestsOk(s') == true && SessionsCreated(s') == true
  {
    var id, pc := s.agents[a].id, s'.agents[a].pc;
    RegisterWithinCapacity(s.tables, id, a, s.cfg.maxClients);
    MovedRequests(s, s', a, pc);
    RegisteredListed(s, s', a, pc);
    MovedIdsApart(s, s', a, pc);
    RegisterKeepsEndpoints(s.tables, id, a);
  }

  lemma AdmittedKeeps(s: State, a: AgentId)
    requires Inv(s) == true && a in s.agents && IsDevice(s, a, s.agents[a].id) && !Full(s.tables, s.cfg.maxClients)
    requires s.agents[a].pc.Registering?
    ensures Keeps(s, Admitting(s, a)) == true
  {
    var s' := Admitting(s, a);
    AdmittedPc(s, a, s.agents[a].id);
    AdmittedReady(s, s', a);
    MovedPc(s, s', a, s'.agents[a].pc);
    SelfStep(s, s', a, s'.agents[a].pc);
  }

  // ---------------------------------------------------------- session requests

  lemma CheckedPc(s: State, a: AgentId, x: AgentId, request: Payload)
    requires a in s.agents && PcOk(s, a, ReqCheck(x, request)) == true
    ensures PcOk(s, a, ReqStore(x, request)) == true
  {
  }

  lemma CheckingKeeps(s: State, a: AgentId, x: AgentId, request: Payload, now: int)
    requires Inv(s) == true && a in s.agents && PcOk(s, a, ReqCheck(x, request)) == true
    ensures Keeps(s, Checking(s, a, x, request, now)) == true
  {
    RefusedOk(s, a, s.agents[a]);
    CheckedPc(s, a, x, request);
    var s' := Checking(s, a, x, request, now);
    GotoKeeps(s, s', a, s'.agents[a].pc);
  }

  lemma OneMoreLive(s: State, s': State, entry: Stored, key: string)
    requires LiveOk(s) && HistoryOk(s) && key == PendingMap.Key(entry.request.controllerId, entry.request.controlledId)
    requires s'.requests == s.requests + [entry] && s'.taken == s.taken
    requires s'.live == s.live[key := |s.requests|] && s'.tables.pending == s.tables.pending[key := entry.request]
    ensures LiveOk(s') == true
  {
  }

  lemma OneMoreStored(s: State, s': State, entry: Stored)
    requires SamePeople(s, s') && HistoryOk(s) && IsParty(s, entry.source, entry.request.controllerId)
    requires IsMode(entry.request.mode) && entry.index <= |s.agents[entry.source].inbox|
    requires s'.requests == s.requests + [entry] && s'.taken == s.taken
    ensures HistoryOk(s') == true
  {
  }

  /** Storing a request adds one entry to the history and one pending pair. */
  lemma StoringRequests(s: State, s': State, a: AgentId, controller: string, controlled: string, mode: string, now: int, pc: Pc)
    requires Moved(s, s', a, pc) == true && RequestsOk(s) == true && IsParty(s, a, controller)
    requires s' == Goto(Storing(s, a, controller, controlled, mode, now), a, pc)
    ensures RequestsOk(s') == true
  {
    var key := PendingMap.Key(controller, controlled);
    MovedPeople(s, s', a, pc);
    OneMoreLive(s, s', s'.requests[|s.requests|], key);
    OneMoreStored(s, s', s'.requests[|s.requests|]);
  }

  lemma StoringMoved(s: State, s': State, a: AgentId, controller: string, controlled: string, mode: string, now: int, pc: Pc)
    requires a in s.agents && s' == Goto(Storing(s, a, controller, controlled, mode, now), a, pc)
    ensures Moved(s, s', a, pc) == true && s'.seated == s.seated && s'.created == s.created
    ensures s'.tables == s.tables.(pending := s'.tables.pending)
  {
  }

  lemma StoringReady(s: State, s': State, a: AgentId, controller: string, controlled: string, mode: string, now: int, pc: Pc)
    requires TablesOk(s) == true && RequestsOk(s) == true && SessionsCreated(s) == true && IsParty(s, a, controller)
    requires s' == Goto(Storing(s, a, controller, controlled, mode, now), a, pc)
    ensures Moved(s, s', a, pc) == true && SeatStep(s, s') == true
    ensures TablesOk(s') == true && RequestsOk(s') == true && SessionsCreated(s') == true
  {
    StoringMoved(s, s', a, controller, controlled, mode, now, pc);
    StoringRequests(s, s', a, controller, controlled, mode, now, pc);
    MovedTables(s, s', a, pc);
  }

  lemma StoringKeeps(s: State, s': State, a: AgentId, controller: string, controlled: string, mode: string, now: int, pc: Pc)
    requires Inv(s) == true && IsParty(s, a, controller) == true
    requires s' == Goto(Storing(s, a, controller, controlled, mode, now), a, pc)
    requires PcOk(s, a, pc) == true && !pc.CnfCreate? && !pc.Registering?
    ensures Keeps(s, s') == true
  {
    StoringReady(s, s', a, controller, controlled, mode, now, pc);
    MovedPc(s, s', a, pc);
    SelfStep(s, s', a, pc);
  }

  lemma RequestEnvelopeOk(s: State, a: AgentId, x: AgentId, request: Payload)
    requires a in s.agents && PcOk(s, a, ReqStore(x, request)) == true
    ensures var agent := s.agents[a];
      PcOk(s, a, Offer(x, RequestEnvelope(agent.inbox[|agent.inbox| - 1], agent.id, request, agent.name, agent.role), Report)) == true
    ensures IsParty(s, a, s.agents[a].id) == true
  {
  }

  lemma StoringRequestKeeps(s: State, a: AgentId, x: AgentId, request: Payload, now: int)
    requires Inv(s) == true && a in s.agents && PcOk(s, a, ReqStore(x, request)) == true
    ensures Keeps(s, StoringRequest(s, a, x, request, now)) == true
  {
    var s' := StoringRequest(s, a, x, request, now);
    RequestEnvelopeOk(s, a, x, request);
    StoringKeeps(s, s', a, s.agents[a].id, request.target, request.mode, now, s'.agents[a].pc);
  }

  lemma VisitorEnvelopeOk(s: State, a: AgentId, x: AgentId)
    requires a in s.agents && PcOk(s, a, WebStore(x)) == true
    ensures var agent := s.agents[a];
      PcOk(s, a, Offer(x, VisitorRequest(agent.id, agent.controlled, agent.shareMode),
                       ThenOwnIfSent(Envelope(WebShareStatus, "", RELAY, agent.id, Note("waiting"))))) == true
    ensures IsParty(s, a, s.agents[a].id) == true
  {
  }

  lemma StoringVisitKeeps(s: State, a: AgentId, x: AgentId, now: int)
    requires Inv(s) == true && a in s.agents && PcOk(s, a, WebStore(x)) == true
    ensures Keeps(s, StoringVisit(s, a, x, now)) == true
  {
    var s' := StoringVisit(s, a, x, now);
    VisitorEnvelopeOk(s, a, x);
    StoringKeeps(s, s', a, s.agents[a].id, s.agents[a].controlled, s.agents[a].shareMode, now, s'.agents[a].pc);
  }

  lemma JoinedTables(s: State, s': State, a: AgentId, pc: Pc)
    requires Moved(s, s', a, pc) && ListedOk(s) && EndpointsOnline(s.tables)
    requires s.agents[a].web && s.agents[a].id != ""
    requires s'.tables == AddWebPeer(s.tables, s.agents[a].id, a) && s'.seated == s.seated + {(s.agents[a].id, a)}
    ensures ListedOk(s') && EndpointsOnline(s'.tables) && SeatStep(s, s')
  {
  }

  lemma JoinedPc(s: State, a: AgentId, x: AgentId)
    requires a in s.agents && PcOk(s, a, WebJoin(x)) == true
    ensures PcOk(s, a, WebStore(x)) == true
  {
  }

  lemma JoinedReady(s: State, s': State, a: AgentId, x: AgentId)
    requires a in s.agents && s.agents[a].web && s.agents[a].id != ""
    requires TablesOk(s) && SessionsCreated(s) && RequestsOk(s) && s' == Joining(s, a, x)
    ensures Moved(s, s', a, WebStore(x)) == true && SeatStep(s, s') == true
    ensures TablesOk(s') == true && RequestsOk(s') == true && SessionsCreated(s') == true
  {
    JoinedTables(s, s', a, WebStore(x));
    MovedIdsApart(s, s', a, WebStore(x));
    MovedRequests(s, s', a, WebStore(x));
  }

  lemma JoinedVisitor(s: State, a: AgentId, x: AgentId)
    requires a in s.agents && PcOk(s, a, WebJoin(x)) == true
    ensures s.agents[a].web && s.agents[a].id != ""
  {
  }

  lemma JoiningKeeps(s: State, a: AgentId, x: AgentId)
    requires Inv(s) == true && a in s.agents && PcOk(s, a, WebJoin(x)) == true
    ensures Keeps(s, Joining(s, a, x)) == true
  {
    var s' := Joining(s, a, x);
    JoinedPc(s, a, x);
    JoinedVisitor(s, a, x);
    JoinedReady(s, s', a, x);
    MovedPc(s, s', a, WebStore(x));
    SelfStep(s, s', a, WebStore(x));
  }

  // ------------------------------------------------------------------ confirms

  /** Fewer requests are pending, and no more than those are marked as taken. */
  lemma RequestsShrunk(s: State, s': State)
    requires SamePeople(s, s') == true && RequestsOk(s) == true
    requires s'.requests == s.requests && s'.live.Keys == s'.tables.pending.Keys
    requires forall n :: n in s'.taken ==> n < |s.requests|
    requires forall k :: k in s'.live ==> k in s.live && s'.live[k] == s.live[k] && s'.live[k] !in s'.taken
    requires forall k :: k in s'.tables.pending ==>
               k in s.tables.pending && s'.tables.pending[k] == s.tables.pending[k]
    ensures RequestsOk(s') == true
  {
  }

  lemma LiveApart(s: State, k: string, key: string)
    requires RequestsOk(s) && k in s.live && key in s.live && k != key
    ensures s.live[k] != s.live[key]
  {
  }

  /** No other live request is taken with the one under `key`. */
  lemma OthersUntaken(s: State, key: string, taken: set<nat>)
    requires RequestsOk(s) && taken == if key in s.live then s.taken + {s.live[key]} else s.taken
    ensures forall k :: k in s.live && k != key ==> s.live[k] !in taken
    ensures forall n :: n in taken ==> n < |s.requests|
  {
    forall k | k in s.live && k != key ensures s.live[k] !in taken {
      if key in s.live { LiveApart(s, k, key); }
    }
  }

  lemma ConsumingRequests(s: State, s': State, a: AgentId, controller: string, controlled: string, pc: Pc)
    requires a in s.agents && RequestsOk(s) == true
    requires s' == Goto(Consuming(s, controller, controlled), a, pc)
    ensures RequestsOk(s') == true
  {
    var key := PendingMap.Key(controller, controlled);
    OthersUntaken(s, key, s'.taken);
    assert s'.live.Keys == s.live.Keys - {key};
    assert s'.tables.pending.Keys == s.tables.pending.Keys - {key};
    RequestsShrunk(s, s');
  }

  lemma DeclinedEnvelopeOk(s: State, a: AgentId, peerId: string, confirm: Payload)
    requires Confirming(s, a, peerId, confirm) && !confirm.accepted && peerId != ""
    ensures var agent := s.agents[a];
      RouteOk(s, a, Stamped(agent.inbox[|agent.inbox| - 1], agent.id, peerId), Report)
  {
  }

  lemma DeclinedPc(s: State, a: AgentId, peerId: string, confirm: Payload)
    requires a in s.agents && PcOk(s, a, CnfDecline(peerId, confirm)) == true && s.agents[a].inbox != []
    ensures PcOk(s, a, Declining(s, a, peerId).agents[a].pc) == true
    ensures !Declining(s, a, peerId).agents[a].pc.CnfCreate?
  {
    DeclinedEnvelopeOk(s, a, peerId, confirm);
  }

  lemma DeclinedReady(s: State, s': State, a: AgentId, peerId: string)
    requires a in s.agents && TablesOk(s) && RequestsOk(s) && SessionsCreated(s) && s.agents[a].inbox != []
    requires s' == Declining(s, a, peerId)
    ensures Moved(s, s', a, s'.agents[a].pc) == true && SeatStep(s, s') == true
    ensures TablesOk(s') == true && RequestsOk(s') == true && SessionsCreated(s') == true
  {
    var pc := s'.agents[a].pc;
    MovedTables(s, s', a, pc);
    ConsumingRequests(s, s', a, peerId, s.agents[a].id, pc);
  }

  lemma DecliningKeeps(s: State, a: AgentId, peerId: string, confirm: Payload)
    requires Inv(s) == true && a in s.agents && PcOk(s, a, CnfDecline(peerId, confirm)) == true && s.agents[a].inbox != []
    ensures Keeps(s, Declining(s, a, peerId)) == true
  {
    var s' := Declining(s, a, peerId);
    DeclinedPc(s, a, peerId, confirm);
    DeclinedReady(s, s', a, peerId);
    MovedPc(s, s', a, s'.agents[a].pc);
    SelfStep(s, s', a, s'.agents[a].pc);
  }

  /** The request just taken was pending, so nobody else has it. */
  lemma ConsumedUnused(s: State, n: nat)
    requires CreatedOk(s) && n !in s.taken
    ensures UnusedRequest(s, Some(n))
  {
    forall sid | sid in s.created ensures s.created[sid].consumed != Some(n) {
      assert CreationOk(s, sid);
    }
  }

  lemma ConsumedUnshared(s: State, a: AgentId, n: nat, pc: Pc)
    requires PcsOk(s) && n !in s.taken && pc.CnfCreate? && pc.consumed == Some(n)
    ensures Unshared(s, a, pc)
  {
    forall b | b in s.agents && b != a
      ensures NoShared(pc, s.agents[b].pc) && NoShared(s.agents[b].pc, pc)
    {
      assert PcOk(s, b, s.agents[b].pc);
    }
  }

  lemma AcceptedFacts(s: State, s': State, a: AgentId, peerId: string, confirm: Payload, peer: AgentId)
    requires a in s.agents && CreatedOk(s) && RequestsOk(s) && AcceptOk(s, a, peerId, confirm, peer)
    requires s' == Accepting(s, a, peerId, confirm, peer)
    ensures AcceptOk(s', a, peerId, confirm, peer)
    ensures ConsumedOk(s', Consumed(s, peerId, s.agents[a].id), peerId, s.agents[a].id)
    ensures UnusedRequest(s', Consumed(s, peerId, s.agents[a].id))
  {
    var n := Consumed(s, peerId, s.agents[a].id);
    if n.Some? { ConsumedUnused(s, n.value); }
  }

  lemma AcceptedPc(s: State, s': State, a: AgentId, peerId: string, confirm: Payload, peer: AgentId)
    requires a in s.agents && CreatedOk(s) && RequestsOk(s) && PcOk(s, a, CnfConsume(peerId, confirm, peer)) == true
    requires s' == Accepting(s, a, peerId, confirm, peer)
    ensures PcOk(s', a, s'.agents[a].pc) == true
  {
    AcceptedFacts(s, s', a, peerId, confirm, peer);
  }

  lemma AcceptedReady(s: State, s': State, a: AgentId, peerId: string, confirm: Payload, peer: AgentId)
    requires a in s.agents && TablesOk(s) && SessionsCreated(s) && RequestsOk(s)
    requires s' == Accepting(s, a, peerId, confirm, peer)
    ensures Moved(s, s', a, s'.agents[a].pc) == true && SeatStep(s, s') == true
    ensures TablesOk(s') == true && RequestsOk(s') == true && SessionsCreated(s') == true
  {
    MovedTables(s, s', a, s'.agents[a].pc);
    ConsumingRequests(s, s', a, peerId, s.agents[a].id, s'.agents[a].pc);
  }

  lemma AcceptedUnshared(s: State, s': State, a: AgentId, peerId: string, confirm: Payload, peer: AgentId)
    requires a in s.agents && PcsOk(s) && RequestsOk(s)
    requires s' == Accepting(s, a, peerId, confirm, peer)
    ensures Unshared(s, a, s'.agents[a].pc) == true
  {
    var pc := s'.agents[a].pc;
    if pc.consumed.Some? { ConsumedUnshared(s, a, pc.consumed.value, pc); }
  }

  lemma AcceptingReady(s: State, s': State, a: AgentId, peerId: string, confirm: Payload, peer: AgentId)
    requires a in s.agents && TablesOk(s) && CreatedOk(s) && RequestsOk(s) && PcsOk(s)
    requires PcOk(s, a, CnfConsume(peerId, confirm, peer)) == true && s' == Accepting(s, a, peerId, confirm, peer)
    ensures Moved(s, s', a, s'.agents[a].pc) == true && SeatStep(s, s') == true
    ensures TablesOk(s') == true && RequestsOk(s') == true && SessionsCreated(s') == true
    ensures PcOk(s', a, s'.agents[a].pc) == true && Unshared(s, a, s'.agents[a].pc) == true
  {
    AcceptedReady(s, s', a, peerId, confirm, peer);
    AcceptedPc(s, s', a, peerId, confirm, peer);
    AcceptedUnshared(s, s', a, peerId, confirm, peer);
  }

  lemma AcceptingKeeps(s: State, a: AgentId, peerId: string, confirm: Payload, peer: AgentId)
    requires Inv(s) == true && a in s.agents && PcOk(s, a, CnfConsume(peerId, confirm, peer)) == true
    ensures Keeps(s, Accepting(s, a, peerId, confirm, peer)) == true
  {
    var s' := Accepting(s, a, peerId, confirm, peer);
    AcceptingReady(s, s', a, peerId, confirm, peer);
    SelfStep(s, s', a, s'.agents[a].pc);
  }

  // ------------------------------------------------------- touches and shares

  lemma TouchedSessions(s: State, s': State, a: AgentId, pc: Pc, sid: string, now: int)
    requires Moved(s, s', a, pc) && s'.tables == Touch(s.tables, sid, now)
    requires EndpointsOnline(s.tables) && SessionsCreated(s)
    ensures EndpointsOnline(s'.tables) && SessionsCreated(s')
  {
  }

  lemma TouchedPc(s: State, a: AgentId, x: AgentId, msg: Envelope)
    requires a in s.agents && PcOk(s, a, FwdTouch(x, msg)) == true
    ensures PcOk(s, a, Offer(x, msg, Report)) == true
  {
  }

  lemma TouchedReady(s: State, s': State, a: AgentId, x: AgentId, msg: Envelope, now: int)
    requires a in s.agents && TablesOk(s) && SessionsCreated(s) && RequestsOk(s)
    requires s' == Touching(s, a, x, msg, now)
    ensures Moved(s, s', a, Offer(x, msg, Report)) == true && SeatStep(s, s') == true
    ensures TablesOk(s') == true && RequestsOk(s') == true && SessionsCreated(s') == true
  {
    var pc := Offer(x, msg, Report);
    TouchedSessions(s, s', a, pc, msg.sessionId, now);
    MovedTables(s, s', a, pc);
    MovedRequests(s, s', a, pc);
  }

  lemma TouchingKeeps(s: State, a: AgentId, x: AgentId, msg: Envelope, now: int)
    requires Inv(s) == true && a in s.agents && PcOk(s, a, FwdTouch(x, msg)) == true
    ensures Keeps(s, Touching(s, a, x, msg, now)) == true
  {
    var s' := Touching(s, a, x, msg, now);
    TouchedPc(s, a, x, msg);
    TouchedReady(s, s', a, x, msg, now);
    MovedPc(s, s', a, Offer(x, msg, Report));
    SelfStep(s, s', a, Offer(x, msg, Report));
  }

  lemma SharedPc(s: State, a: AgentId, c: Choice)
    requires a in s.agents && PcOk(s, a, s.agents[a].pc) == true
    requires s.agents[a].pc.ShareCreate? || s.agents[a].pc.ShareList? || s.agents[a].pc.ShareRevoke? || s.agents[a].pc.WebCheck?
    ensures var pc := Sharing(s, a, c).agents[a].pc; !pc.CnfCreate? && !pc.Registering? && PcOk(s, a, pc) == true
  {
    RefusedOk(s, a, s.agents[a]);
  }

  lemma SharedReady(s: State, s': State, a: AgentId, c: Choice)
    requires a in s.agents && TablesOk(s) && RequestsOk(s) && SessionsCreated(s) && s' == Sharing(s, a, c)
    ensures Moved(s, s', a, s'.agents[a].pc) == true && SeatStep(s, s') == true
    ensures TablesOk(s') == true && RequestsOk(s') == true && SessionsCreated(s') == true
  {
    MovedRequests(s, s', a, s'.agents[a].pc);
    MovedTables(s, s', a, s'.agents[a].pc);
  }

  lemma SharingKeeps(s: State, a: AgentId, c: Choice)
    requires Inv(s) == true && a in s.agents && PcOk(s, a, Sharing(s, a, c).agents[a].pc) == true
    requires !Sharing(s, a, c).agents[a].pc.CnfCreate? && !Sharing(s, a, c).agents[a].pc.Registering?
    ensures Keeps(s, Sharing(s, a, c)) == true
  {
    var s' := Sharing(s, a, c);
    SharedReady(s, s', a, c);
    MovedPc(s, s', a, s'.agents[a].pc);
    SelfStep(s, s', a, s'.agents[a].pc);
  }

  // -------------------------------------------------------------- new sessions

  /** The two announcements of a new session, before either is queued. */
  lemma AnnouncedOk(s': State, a: AgentId, sid: string, name: string, peerName: string)
    requires a in s'.agents && sid in s'.created && CreationOk(s', sid)
    requires s'.created[sid].source == a && s'.created[sid].index == |s'.agents[a].inbox|
    requires NoReadyYet(s', sid)
    ensures var session := s'.created[sid].session;
      RouteOk(s', a, ReadyToController(session, name),
              ThenOwn(ReadyToControlled(session, session.controllerId, peerName)))
  {
  }

  lemma NoReadyForUnknown(s: State, sid: string)
    requires LogOk(s) && sid !in s.created
    ensures NoReadyYet(s, sid)
  {
    forall i | 0 <= i < |s.mail.log| && IsControllerReady(s.mail.log[i].envelope)
      ensures s.mail.log[i].envelope.sessionId != sid
    {
      assert SentOk(s, s.mail.log[i]);
    }
  }

  ghost predicate Made(s: State, s': State, a: AgentId, pc: Pc, c: Choice) {
    && a in s.agents && pc.CnfCreate? && pc.confirm.Confirm? && pc.peer in s.agents
    && s.agents[a].pc == pc
    && CanCreate(s.tables, pc.peerId, s.agents[a].id)
    && c.freshId !in s.created && c.freshId != ""
    && s' == Creating(s, a, pc, c)
  }

  lemma MadeCreation(s: State, s': State, a: AgentId, pc: Pc, c: Choice)
    requires Made(s, s', a, pc, c) && PcOk(s, a, pc) == true
    requires forall n :: 0 <= n < |s.requests| ==> IsMode(s.requests[n].request.mode)
    ensures CreationOk(s', c.freshId)
  {
  }

  lemma MadeGrows(s: State, s': State, a: AgentId, pc: Pc, c: Choice)
    requires Made(s, s', a, pc, c)
    ensures Grows(s, s') == true && NewMail(s, s', a) == true && NewCreations(s, s', a) == true
    ensures s'.created.Keys == s.created.Keys + {c.freshId}
  {
  }

  lemma MadeLawful(s: State, s': State, a: AgentId, pc: Pc, c: Choice)
    requires Made(s, s', a, pc, c)
    ensures SeatStep(s, s') == true && FallStep(s, s') == true && EndStep(s, s') == true
  {
  }

  lemma MadeTables(s: State, s': State, a: AgentId, pc: Pc, c: Choice)
    requires Made(s, s', a, pc, c) && EndpointsOnline(s.tables) && SessionsCreated(s)
    ensures EndpointsOnline(s'.tables) && SessionsCreated(s')
  {
  }

  lemma MadeSeats(s: State, s': State, a: AgentId, pc: Pc, c: Choice)
    requires Made(s, s', a, pc, c) == true && ListedOk(s) == true && IdsApart(s) == true && RequestsOk(s) == true
    ensures ListedOk(s') == true && IdsApart(s') == true && RequestsOk(s') == true
  {
    SeatsKept(s, s');
    RequestsKept(s, s');
  }

  lemma MadePc(s: State, s': State, a: AgentId, pc: Pc, c: Choice)
    requires Made(s, s', a, pc, c) && PcOk(s, a, pc) == true && LogOk(s) && CreationOk(s', c.freshId)
    ensures PcOk(s', a, s'.agents[a].pc) == true && !s'.agents[a].pc.CnfCreate?
  {
    NoReadyForUnknown(s, c.freshId);
    var agent, peer := s.agents[a], s.agents[pc.peer];
    AnnouncedOk(s', a, c.freshId, agent.name, peer.name);
  }

  lemma MadeLocal(s: State, s': State, a: AgentId, pc: Pc, c: Choice)
    requires Made(s, s', a, pc, c)
    ensures LocalStep(s, s', a)
  {
    MadeGrows(s, s', a, pc, c);
  }

  lemma MadeTablesReady(s: State, s': State, a: AgentId, pc: Pc, c: Choice)
    requires Made(s, s', a, pc, c) && TablesReady(s)
    ensures TablesReady(s')
  {
    MadeTables(s, s', a, pc, c);
    MadeSeats(s, s', a, pc, c);
  }

  lemma MadeCreations(s: State, s': State, a: AgentId, pc: Pc, c: Choice)
    requires Made(s, s', a, pc, c) && PcOk(s, a, pc) == true && RequestsOk(s)
    ensures CreationsReady(s, s')
  {
    MadeGrows(s, s', a, pc, c);
    MadeCreation(s, s', a, pc, c);
  }

  lemma MadePosition(s: State, s': State, a: AgentId, pc: Pc, c: Choice)
    requires Made(s, s', a, pc, c) && PcOk(s, a, pc) == true && LogOk(s) && RequestsOk(s)
    ensures PositionReady(s, s', a) == true
  {
    MadeCreation(s, s', a, pc, c);
    MadePc(s, s', a, pc, c);
  }

  lemma MadeKeeps(s: State, s': State, a: AgentId, pc: Pc, c: Choice)
    requires Inv(s) == true && Made(s, s', a, pc, c) == true && PcOk(s, a, pc) == true
    ensures Keeps(s, s') == true
  {
    MadeLocal(s, s', a, pc, c);
    MadeTablesReady(s, s', a, pc, c);
    MadeCreations(s, s', a, pc, c);
    MadePosition(s, s', a, pc, c);
    Assemble(s, s', a);
    MadeGrows(s, s', a, pc, c);
    MadeLawful(s, s', a, pc, c);
  }

  lemma CreatingCases(s: State, a: AgentId, pc: Pc, c: Choice)
    requires a in s.agents && s.agents[a].pc == pc && pc.CnfCreate?
    requires PcOk(s, a, pc) == true && c.freshId !in s.created && c.freshId != ""
    ensures pc.confirm.Confirm? && pc.peer in s.agents
    ensures if CanCreate(s.tables, pc.peerId, s.agents[a].id) then Made(s, Creating(s, a, pc, c), a, pc, c) == true
            else Creating(s, a, pc, c) == Goto(s, a, Failing(a, s.agents[a]))
  {
  }

  lemma CreatingKeeps(s: State, a: AgentId, pc: Pc, c: Choice)
    requires Inv(s) == true && a in s.agents && s.agents[a].pc == pc && pc.CnfCreate?
    requires PcOk(s, a, pc) == true && c.freshId !in s.created && c.freshId != ""
    ensures Keeps(s, Creating(s, a, pc, c)) == true
  {
    CreatingCases(s, a, pc, c);
    if CanCreate(s.tables, pc.peerId, s.agents[a].id) {
      MadeKeeps(s, Creating(s, a, pc, c), a, pc, c);
    } else {
      RefusedKeeps(s, a);
    }
  }

  // ---------------------------------------------------------------------- mail

  lemma BoxOfLonger(mail: Mail, m: Sent, x: AgentId, box: Box)
    requires BoxOk(mail, x, box)
    ensures BoxOk(Mail(mail.log + [m], mail.boxes), x, box) == true
  {
  }

  lemma BoxWithOneMore(mail: Mail, m: Sent, box: Box)
    requires BoxOk(mail, m.to, box) && |box.picked| < box.written + QUEUE_CAPACITY
    ensures BoxOk(Mail(mail.log + [m], mail.boxes), m.to, box.(picked := box.picked + [|mail.log|])) == true
  {
  }

  lemma BoxesHave(mail: Mail, after: Mail, x: AgentId, box: Box)
    requires after.log == mail.log && BoxOk(mail, x, box) == true
    ensures BoxOk(after, x, box) == true
  {
  }

  lemma PostKeepsBoxes(people: map<AgentId, Agent>, mail: Mail, m: Sent, coins: set<nat>)
    requires BoxesOk(mail) == true
    ensures BoxesOk(Post(people, mail, m, coins)) == true
  {
    var after := Post(people, mail, m, coins);
    forall x | x in after.boxes ensures BoxOk(after, x, after.boxes[x]) == true {
      var box := BoxOf(mail, x);
      assert BoxOk(mail, x, box) == true;
      if x == m.to && Accepts(people, mail, x, coins) {
        BoxWithOneMore(mail, m, box);
      } else {
        BoxOfLonger(mail, m, x, box);
      }
      BoxesHave(Mail(mail.log + [m], mail.boxes), after, x, after.boxes[x]);
    }
  }

  lemma {:induction false} PostAllLog(people: map<AgentId, Agent>, mail: Mail, all: seq<Sent>, coins: set<nat>)
    requires BoxesOk(mail) == true
    ensures PostAll(people, mail, all, coins).log == mail.log + all
    ensures BoxesOk(PostAll(people, mail, all, coins)) == true
  {
    if all != [] {
      PostAllLog(people, mail, all[..|all| - 1], coins);
      PostKeepsBoxes(people, PostAll(people, mail, all[..|all| - 1], coins), all[|all| - 1], coins);
    }
  }

  /** `a` offers one envelope and moves on. */
  ghost predicate Posted(s: State, s': State, a: AgentId, x: AgentId, e: Envelope, pc: Pc, coins: set<nat>) {
    && a in s.agents
    && s' == Goto(s.(mail := Post(s.agents, s.mail, Sent(x, e, a, |s.agents[a].inbox|), coins)), a, pc)
  }

  lemma PostedGrows(s: State, s': State, a: AgentId, x: AgentId, e: Envelope, pc: Pc, coins: set<nat>)
    requires Posted(s, s', a, x, e, pc, coins)
    ensures Grows(s, s') == true && NewCreations(s, s', a) == true && SamePeople(s, s') == true
    ensures s'.mail.log == s.mail.log + [Sent(x, e, a, |s.agents[a].inbox|)]
  {
  }

  lemma PostedLawful(s: State, s': State, a: AgentId, x: AgentId, e: Envelope, pc: Pc, coins: set<nat>)
    requires Posted(s, s', a, x, e, pc, coins) && e.kind != SessionClose
    ensures SeatStep(s, s') == true && FallStep(s, s') == true && EndStep(s, s') == true
  {
  }

  lemma PostedLocal(s: State, s': State, a: AgentId, x: AgentId, e: Envelope, pc: Pc, coins: set<nat>)
    requires Posted(s, s', a, x, e, pc, coins) && PendingEnvelope(s, a, e) && RecipientOk(s, x, a, e)
    ensures LocalStep(s, s', a) == true
  {
    PostedGrows(s, s', a, x, e, pc, coins);
    EnvelopeGrows(s, s', a, |s.agents[a].inbox|, e);
    RecipientGrows(s, s', x, a, |s.agents[a].inbox|, e);
    assert s'.mail.log[|s.mail.log|] == Sent(x, e, a, |s.agents[a].inbox|);
  }

  lemma PostedTables(s: State, s': State, a: AgentId, x: AgentId, e: Envelope, pc: Pc, coins: set<nat>)
    requires Posted(s, s', a, x, e, pc, coins) && TablesReady(s)
    ensures TablesReady(s') == true
  {
    PostedGrows(s, s', a, x, e, pc, coins);
    SeatsKept(s, s');
    RequestsKept(s, s');
    PostKeepsBoxes(s.agents, s.mail, Sent(x, e, a, |s.agents[a].inbox|), coins);
  }

  /** The envelope queued for oneself afterwards is neither forwarded traffic
      nor an announcement to the controller, so the new mail is no obstacle. */
  lemma OwnStillPending(s: State, s': State, a: AgentId, own: Envelope)
    requires Grows(s, s') == true && SamePeople(s, s') == true && PendingEnvelope(s, a, own) == true
    requires !IsSessionTraffic(own.kind) && !IsControllerReady(own)
    ensures PendingEnvelope(s', a, own)
  {
    EnvelopeGrows(s, s', a, |s.agents[a].inbox|, own);
  }

  lemma OwnOfferOk(s: State, s': State, a: AgentId, own: Envelope, next: Next)
    requires a in s.agents && Grows(s, s') == true && SamePeople(s, s') == true && PendingEnvelope(s, a, own) == true
    requires !IsSessionTraffic(own.kind) && !IsControllerReady(own) && RecipientOk(s, a, a, own) == true
    requires next.Finish? || next.Report?
    ensures PcOk(s', a, Offer(a, own, next)) == true
  {
    OwnStillPending(s, s', a, own);
    RecipientGrows(s, s', a, a, |s.agents[a].inbox|, own);
    OfferPc(s', a, a, own, next);
  }

  lemma OwnNext(s: State, a: AgentId, next: Next)
    requires a in s.agents && NextOk(s, a, next) && (next.ThenOwn? || next.ThenOwnIfSent?)
    ensures var own := if next.ThenOwn? then next.own else next.status;
      && PendingEnvelope(s, a, own) == true && RecipientOk(s, a, a, own) == true
      && !IsSessionTraffic(own.kind) && !IsControllerReady(own)
  {
  }

  lemma AfterOfferOk(s: State, s': State, a: AgentId, next: Next, ok: bool)
    requires a in s.agents && NextOk(s, a, next) == true && Grows(s, s') == true && SamePeople(s, s') == true
    ensures PcOk(s', a, AfterOffer(a, s.agents[a], next, ok)) == true
  {
    IdleOk(s', a);
    RefusedOk(s', a, s.agents[a]);
    if next.ThenOwn? {
      OwnNext(s, a, next);
      OwnOfferOk(s, s', a, next.own, Report);
    } else if next.ThenOwnIfSent? {
      OwnNext(s, a, next);
      OwnOfferOk(s, s', a, next.status, Finish);
    }
  }

  lemma IdleOk(s: State, a: AgentId)
    requires a in s.agents
    ensures PcOk(s, a, Idle) == true
  {
  }

  lemma PostedPosition(s: State, s': State, a: AgentId, x: AgentId, e: Envelope, next: Next, ok: bool, coins: set<nat>)
    requires a in s.agents && NextOk(s, a, next)
    requires Posted(s, s', a, x, e, AfterOffer(a, s.agents[a], next, ok), coins)
    ensures PositionReady(s, s', a) == true
  {
    PostedGrows(s, s', a, x, e, AfterOffer(a, s.agents[a], next, ok), coins);
    AfterOfferOk(s, s', a, next, ok);
  }

  lemma OfferJustified(s: State, a: AgentId, x: AgentId, e: Envelope, next: Next)
    requires a in s.agents && PcOk(s, a, Offer(x, e, next)) == true
    ensures PendingEnvelope(s, a, e) == true && NextOk(s, a, next) == true && RecipientOk(s, x, a, e) == true
    ensures e.kind != SessionClose
  {
  }

  lemma OfferedReady(s: State, s': State, a: AgentId, x: AgentId, e: Envelope, next: Next, coins: set<nat>)
    requires a in s.agents && PcOk(s, a, Offer(x, e, next)) == true && TablesReady(s) && s' == Offered(s, a, x, e, next, coins)
    ensures StepReady(s, s', a) == true
    ensures Grows(s, s') == true && SeatStep(s, s') == true && FallStep(s, s') == true && EndStep(s, s') == true
  {
    var ok := Accepts(s.agents, s.mail, x, coins);
    var pc := AfterOffer(a, s.agents[a], next, ok);
    OfferJustified(s, a, x, e, next);
    PostedLocal(s, s', a, x, e, pc, coins);
    PostedTables(s, s', a, x, e, pc, coins);
    PostedPosition(s, s', a, x, e, next, ok, coins);
    NothingMade(s, s');
    PostedGrows(s, s', a, x, e, pc, coins);
    PostedLawful(s, s', a, x, e, pc, coins);
  }

  lemma OfferedKeeps(s: State, a: AgentId, x: AgentId, e: Envelope, next: Next, coins: set<nat>)
    requires Inv(s) == true && a in s.agents && PcOk(s, a, Offer(x, e, next)) == true
    ensures Keeps(s, Offered(s, a, x, e, next, coins)) == true
  {
    OfferedReady(s, Offered(s, a, x, e, next, coins), a, x, e, next, coins);
    Assemble(s, Offered(s, a, x, e, next, coins), a);
  }

  // ------------------------------------------------------------------- closing

  /** Close notices of removed sessions, offered by `a`. */
  ghost predicate ClosesRemoved(s: State, s': State, m: Sent, a: AgentId) {
    && a in s.agents && a in s'.agents && m.source == a && m.index == |s.agents[a].inbox|
    && m.envelope.kind == SessionClose
    && EnvelopeOk(s', a, m.index, m.envelope)
    && IsSeated(s', m.to, m.envelope.to)
  }

  ghost predicate OnlyCloses(s: State, s': State, a: AgentId) {
    forall i :: |s.mail.log| <= i < |s'.mail.log| ==> ClosesRemoved(s, s', s'.mail.log[i], a)
  }

  lemma CloseEnvelopeOk(s': State, a: AgentId, index: nat, sid: string, to: string, reason: string)
    requires a in s'.agents && sid in s'.created && sid !in s'.tables.sessions
    requires to != "" && Names(s'.created[sid].session, to)
    ensures EnvelopeOk(s', a, index, CloseEnvelope(sid, to, reason))
  {
  }

  lemma FoundEndpoints(s: State, sid: string, id: string)
    requires CreatedOk(s) && sid in s.tables.sessions && Names(s.tables.sessions[sid], id)
    ensures sid in s.created && Names(s.created[sid].session, id) && id != "" && s.tables.sessions[sid].id == sid
  {
    FoundSession(s, sid);
  }

  /** One session is gone; its endpoints, as registered, are told. */
  lemma NoticeOk(s: State, s': State, a: AgentId, sid: string, reason: string, n: nat)
    requires a in s.agents && a in s'.agents && s'.created == s.created
    requires CreatedOk(s) && ListedOk(s') && sid in s.tables.sessions && sid !in s'.tables.sessions
    requires n < |CloseNotices(s'.tables, s.tables.sessions[sid], reason)|
    ensures var notice := CloseNotices(s'.tables, s.tables.sessions[sid], reason)[n];
      ClosesRemoved(s, s', Sent(AgentOf(notice.recipient), notice.envelope, a, |s.agents[a].inbox|), a)
  {
    var session := s.tables.sessions[sid];
    var notice := CloseNotices(s'.tables, session, reason)[n];
    NoticeShape(s'.tables, session, reason, n);
    NoticeRecipient(s', notice);
    FoundEndpoints(s, sid, notice.envelope.to);
    CloseEnvelopeOk(s', a, |s.agents[a].inbox|, sid, notice.envelope.to, reason);
  }

  lemma NoticeRecipient(s: State, notice: Notice<AgentId, AgentId>)
    requires ListedOk(s)
    requires var to := notice.envelope.to;
      || (to in s.tables.clients && notice.recipient == Device(s.tables.clients[to]))
      || (to in s.tables.webPeers && notice.recipient == Visitor(s.tables.webPeers[to]))
    ensures IsSeated(s, AgentOf(notice.recipient), notice.envelope.to)
  {
  }

  lemma IdlePosition(s: State, s': State, a: AgentId)
    requires a in s'.agents && s'.agents[a].pc.Idle?
    ensures PositionReady(s, s', a) == true
  {
  }

  lemma NothingMade(s: State, s': State)
    requires s'.created == s.created
    ensures CreationsReady(s, s') == true
  {
  }

  lemma ClosingMail(s: State, s': State, a: AgentId)
    requires a in s.agents && Grows(s, s') == true && SamePeople(s, s') == true && s'.seated == s.seated
    requires OnlyCloses(s, s', a) == true
    ensures NewMail(s, s', a) == true
  {
    forall i | |s.mail.log| <= i < |s'.mail.log| ensures NewMailOk(s, s', a, s'.mail.log[i]) == true {
      assert ClosesRemoved(s, s', s'.mail.log[i], a);
    }
  }

  lemma ClosingLocal(s: State, s': State, a: AgentId)
    requires a in s.agents && Grows(s, s') == true && SamePeople(s, s') == true
    requires s'.created == s.created && s'.seated == s.seated
    requires forall b :: b in s.agents && b != a ==> s'.agents[b] == s.agents[b]
    requires OnlyCloses(s, s', a) == true
    ensures LocalStep(s, s', a) == true
  {
    ClosingMail(s, s', a);
  }

  ghost predicate Removed(s: State, s': State, a: AgentId, sid: string, reason: string, coins: set<nat>) {
    a in s.agents && sid in s.tables.sessions && s' == Removing(s, a, sid, reason, coins)
  }

  lemma RemovedPeople(s: State, s': State, a: AgentId, sid: string, reason: string, coins: set<nat>)
    requires Removed(s, s', a, sid, reason, coins)
    ensures SamePeople(s, s') == true && s'.agents[a].pc.Idle?
    ensures s'.created == s.created && s'.seated == s.seated && s'.tables == RemoveSession(s.tables, sid)
    ensures forall b :: b in s.agents && b != a ==> s'.agents[b] == s.agents[b]
  {
  }

  lemma RemovedGrows(s: State, s': State, a: AgentId, sid: string)
    requires a in s.agents && s.mail.log <= s'.mail.log
    requires s' == s.(agents := s.agents[a := s.agents[a].(pc := Idle)], tables := RemoveSession(s.tables, sid), mail := s'.mail)
    ensures Grows(s, s') == true
  {
  }

  lemma RemovedShape(s: State, s': State, a: AgentId, sid: string, reason: string, coins: set<nat>)
    requires Removed(s, s', a, sid, reason, coins) && BoxesOk(s.mail) == true
    ensures Grows(s, s') == true && BoxesOk(s'.mail) == true
    ensures s'.mail.log == s.mail.log +
              Addressed(CloseNotices(s'.tables, s.tables.sessions[sid], reason), a, |s.agents[a].inbox|)
  {
    var told := Addressed(CloseNotices(s.tables, s.tables.sessions[sid], reason), a, |s.agents[a].inbox|);
    PostAllLog(s.agents, s.mail, told, coins);
    RemovedGrows(s, s', a, sid);
  }

  lemma RemovedSessions(s: State, s': State, sid: string)
    requires s'.tables == RemoveSession(s.tables, sid) && s'.created == s.created
    requires EndpointsOnline(s.tables) && SessionsCreated(s)
    ensures EndpointsOnline(s'.tables) == true && SessionsCreated(s') == true
  {
  }

  lemma RemovedTables(s: State, s': State, a: AgentId, sid: string, reason: string, coins: set<nat>)
    requires Removed(s, s', a, sid, reason, coins) == true && TablesReady(s) == true
    ensures TablesReady(s') == true
  {
    RemovedPeople(s, s', a, sid, reason, coins);
    RemovedShape(s, s', a, sid, reason, coins);
    RemovedSessions(s, s', sid);
    SeatsKept(s, s');
    RequestsKept(s, s');
  }

  /** The log after close notices, by position: first what it was, then
      `notices` as `a` offers them. */
  lemma NoticeAt(s: State, s': State, a: AgentId, notices: seq<Notice<AgentId, AgentId>>, i: nat)
    requires a in s.agents && s'.mail.log == s.mail.log + Addressed(notices, a, |s.agents[a].inbox|)
    requires |s.mail.log| <= i < |s'.mail.log|
    ensures i - |s.mail.log| < |notices|
    ensures var notice := notices[i - |s.mail.log|];
      s'.mail.log[i] == Sent(AgentOf(notice.recipient), notice.envelope, a, |s.agents[a].inbox|)
  {
  }

  lemma RemovedNotices(s: State, s': State, a: AgentId, sid: string, reason: string)
    requires a in s.agents && a in s'.agents && s'.created == s.created
    requires CreatedOk(s) == true && ListedOk(s') == true && sid in s.tables.sessions && sid !in s'.tables.sessions
    requires s'.mail.log == s.mail.log +
               Addressed(CloseNotices(s'.tables, s.tables.sessions[sid], reason), a, |s.agents[a].inbox|)
    ensures OnlyCloses(s, s', a) == true
  {
    var notices := CloseNotices(s'.tables, s.tables.sessions[sid], reason);
    forall i | |s.mail.log| <= i < |s'.mail.log| ensures ClosesRemoved(s, s', s'.mail.log[i], a) == true {
      NoticeAt(s, s', a, notices, i);
      NoticeOk(s, s', a, sid, reason, i - |s.mail.log|);
    }
  }

  lemma RemovedLocal(s: State, s': State, a: AgentId, sid: string, reason: string, coins: set<nat>)
    requires Removed(s, s', a, sid, reason, coins) && CreatedOk(s) == true && BoxesOk(s.mail) == true && ListedOk(s') == true
    ensures LocalStep(s, s', a) == true
  {
    RemovedPeople(s, s', a, sid, reason, coins);
    RemovedShape(s, s', a, sid, reason, coins);
    RemovedNotices(s, s', a, sid, reason);
    ClosingLocal(s, s', a);
  }

  lemma OneNotice(t: RelayTables, sessions: map<string, Session>, sid: string, reason: string)
    requires sid in sessions
    ensures AllCloseNotices(t, sessions, [sid], reason) == CloseNotices(t, sessions[sid], reason)
  {
    var none: seq<string> := [];
    assert [sid][..0] == none;
    assert AllCloseNotices(t, sessions, none, reason) == [];
  }

  lemma RemovedLawful(s: State, s': State, a: AgentId, sid: string, reason: string, coins: set<nat>)
    requires Removed(s, s', a, sid, reason, coins) == true && BoxesOk(s.mail) == true
    ensures Grows(s, s') == true && SeatStep(s, s') == true && FallStep(s, s') == true && EndStep(s, s') == true
  {
    RemovedPeople(s, s', a, sid, reason, coins);
    RemovedShape(s, s', a, sid, reason, coins);
    RemovedEnds(s, s', a, sid, reason);
  }

  lemma RemovedEnds(s: State, s': State, a: AgentId, sid: string, reason: string)
    requires a in s.agents && sid in s.tables.sessions && s'.tables == RemoveSession(s.tables, sid) && s'.created == s.created
    requires s'.mail.log == s.mail.log +
               Addressed(CloseNotices(s'.tables, s.tables.sessions[sid], reason), a, |s.agents[a].inbox|)
    ensures EndStep(s, s') == true
  {
    OneNotice(s'.tables, s.tables.sessions, sid, reason);
    assert s.tables.sessions.Keys - s'.tables.sessions.Keys == {sid};
    assert Ends(s, s', a, [sid], reason);
  }

  lemma RemovingKeeps(s: State, a: AgentId, sid: string, reason: string, coins: set<nat>)
    requires Inv(s) == true && a in s.agents
    ensures Keeps(s, Removing(s, a, sid, reason, coins)) == true
  {
    var s' := Removing(s, a, sid, reason, coins);
    if sid !in s.tables.sessions {
      GotoKeeps(s, s', a, Idle);
    } else {
      RemovedPeople(s, s', a, sid, reason, coins);
      RemovedTables(s, s', a, sid, reason, coins);
      RemovedLocal(s, s', a, sid, reason, coins);
      IdlePosition(s, s', a);
      NothingMade(s, s');
      Assemble(s, s', a);
      RemovedLawful(s, s', a, sid, reason, coins);
    }
  }
}
