/** Connections coming and going, and the invariant over whole runs. */
module RelayRuns {
  import opened Protocol
  import opened Registry
  import opened RelaySystem
  import opened RelayInvariants
  import opened RelaySteps
  import PendingMap
  import WebShares
  import AuthCode

  // ---------------------------------------------------------------- tear-down

  ghost predicate TornDown(s: State, s': State, a: AgentId, order: seq<string>, now: int, coins: set<nat>) {
    && a in s.agents && Enumerates(order, Ended(s, a))
    && s' == TearDown(s, a, order, now, coins)
  }

  lemma TornTablesShape(s: State, a: AgentId, now: int)
    requires a in s.agents && EndpointsOnline(s.tables) == true && IdsApart(s) == true
    ensures var t := TornTables(s, a, now);
      && EndpointsOnline(t)
      && t.clients.Keys <= s.tables.clients.Keys && t.webPeers.Keys <= s.tables.webPeers.Keys
      && (forall k :: k in t.clients ==> t.clients[k] == s.tables.clients[k])
      && (forall k :: k in t.webPeers ==> t.webPeers[k] == s.tables.webPeers[k])
      && t.sessions.Keys == s.tables.sessions.Keys - Ended(s, a)
      && (forall k :: k in t.sessions ==> t.sessions[k] == s.tables.sessions[k])
      && t.pending.Keys <= s.tables.pending.Keys
      && (forall k :: k in t.pending ==> t.pending[k] == s.tables.pending[k])
  {
    var agent := s.agents[a];
    if agent.web {
      SectionKeepsEndpoints(s.tables, DoUnregisterWebPeer(agent.id, a));
    } else {
      SectionKeepsEndpoints(s.tables, DoUnregister(agent.id, a, now));
    }
  }

  lemma {:induction false} AllNoticesFrom(t: RelayTables, sessions: map<string, Session>, order: seq<string>, reason: string, n: nat)
    returns (k: nat, m: nat)
    requires forall sid :: sid in order ==> sid in sessions
    requires n < |AllCloseNotices(t, sessions, order, reason)|
    ensures k < |order| && m < |CloseNotices(t, sessions[order[k]], reason)|
    ensures AllCloseNotices(t, sessions, order, reason)[n] == CloseNotices(t, sessions[order[k]], reason)[m]
  {
    var last := |order| - 1;
    var before := AllCloseNotices(t, sessions, order[..last], reason);
    if n < |before| {
      k, m := AllNoticesFrom(t, sessions, order[..last], reason, n);
    } else {
      k, m := last, n - |before|;
    }
  }

  lemma TornPeople(s: State, s': State, a: AgentId, order: seq<string>, now: int, coins: set<nat>)
    requires TornDown(s, s', a, order, now, coins)
    ensures SamePeople(s, s') == true && s'.created == s.created && s'.seated == s.seated
    ensures s'.tables == TornTables(s, a, now) && s'.agents[a].pc == s.agents[a].pc
    ensures forall b :: b in s.agents && b != a ==> s'.agents[b] == s.agents[b]
  {
  }

  lemma TornLog(s: State, s': State, a: AgentId, order: seq<string>, now: int, coins: set<nat>)
    requires TornDown(s, s', a, order, now, coins) && BoxesOk(s.mail) == true
    ensures BoxesOk(s'.mail) == true
    ensures forall sid :: sid in order ==> sid in s.tables.sessions
    ensures s'.mail.log == s.mail.log +
              Addressed(AllCloseNotices(s'.tables, s.tables.sessions, order, TearDownReason(s.agents[a])),
                        a, |s.agents[a].inbox|)
  {
    var told := Addressed(AllCloseNotices(s'.tables, s.tables.sessions, order, TearDownReason(s.agents[a])),
                          a, |s.agents[a].inbox|);
    PostAllLog(s.agents, s.mail, told, coins);
  }

  lemma FallGrows(s: State, s': State, a: AgentId)
    requires a in s.agents
    requires s' == s.(agents := s.agents[a := s.agents[a].(phase := Torn)], tables := s'.tables, live := s'.live, mail := s'.mail)
    requires s'.tables.sessions.Keys <= s.tables.sessions.Keys && s.mail.log <= s'.mail.log
    ensures Grows(s, s') == true
  {
  }

  lemma TornGrows(s: State, s': State, a: AgentId, order: seq<string>, now: int, coins: set<nat>)
    requires TornDown(s, s', a, order, now, coins) && EndpointsOnline(s.tables) == true && IdsApart(s) == true
    requires s.mail.log <= s'.mail.log
    ensures Grows(s, s') == true
    ensures forall sid :: sid in order ==> sid !in s'.tables.sessions
  {
    TornTablesShape(s, a, now);
    FallGrows(s, s', a);
  }

  lemma TornShape(s: State, s': State, a: AgentId, order: seq<string>, now: int, coins: set<nat>)
    requires TornDown(s, s', a, order, now, coins) && TablesOk(s) == true && BoxesOk(s.mail) == true
    ensures Grows(s, s') == true && SamePeople(s, s') == true && BoxesOk(s'.mail) == true
    ensures s'.created == s.created && s'.seated == s.seated
    ensures s'.tables == TornTables(s, a, now) && s'.agents[a].pc == s.agents[a].pc
    ensures forall b :: b in s.agents && b != a ==> s'.agents[b] == s.agents[b]
    ensures forall sid :: sid in order ==> sid in s.tables.sessions && sid !in s'.tables.sessions
    ensures s'.mail.log == s.mail.log +
              Addressed(AllCloseNotices(s'.tables, s.tables.sessions, order, TearDownReason(s.agents[a])),
                        a, |s.agents[a].inbox|)
  {
    TornPeople(s, s', a, order, now, coins);
    TornLog(s, s', a, order, now, coins);
    TornGrows(s, s', a, order, now, coins);
  }

  lemma TornNotice(s: State, s': State, a: AgentId, order: seq<string>, n: nat)
    requires a in s.agents && a in s'.agents && s'.created == s.created
    requires CreatedOk(s) == true && ListedOk(s') == true
    requires forall sid :: sid in order ==> sid in s.tables.sessions && sid !in s'.tables.sessions
    requires n < |AllCloseNotices(s'.tables, s.tables.sessions, order, TearDownReason(s.agents[a]))|
    ensures var notice := AllCloseNotices(s'.tables, s.tables.sessions, order, TearDownReason(s.agents[a]))[n];
      ClosesRemoved(s, s', Sent(AgentOf(notice.recipient), notice.envelope, a, |s.agents[a].inbox|), a) == true
  {
    var reason := TearDownReason(s.agents[a]);
    var k, m := AllNoticesFrom(s'.tables, s.tables.sessions, order, reason, n);
    NoticeOk(s, s', a, order[k], reason, m);
  }

  lemma TornNotices(s: State, s': State, a: AgentId, order: seq<string>)
    requires a in s.agents && a in s'.agents && s'.created == s.created
    requires CreatedOk(s) == true && ListedOk(s') == true
    requires forall sid :: sid in order ==> sid in s.tables.sessions && sid !in s'.tables.sessions
    requires s'.mail.log == s.mail.log +
               Addressed(AllCloseNotices(s'.tables, s.tables.sessions, order, TearDownReason(s.agents[a])),
                         a, |s.agents[a].inbox|)
    ensures OnlyCloses(s, s', a) == true
  {
    var notices := AllCloseNotices(s'.tables, s.tables.sessions, order, TearDownReason(s.agents[a]));
    forall i | |s.mail.log| <= i < |s'.mail.log| ensures ClosesRemoved(s, s', s'.mail.log[i], a) == true {
      NoticeAt(s, s', a, notices, i);
      TornNotice(s, s', a, order, i - |s.mail.log|);
    }
  }

  lemma TornMail(s: State, s': State, a: AgentId, order: seq<string>, now: int, coins: set<nat>)
    requires TornDown(s, s', a, order, now, coins) && TablesOk(s) == true && BoxesOk(s.mail) == true
    requires CreatedOk(s) == true && ListedOk(s') == true
    ensures OnlyCloses(s, s', a) == true
  {
    TornShape(s, s', a, order, now, coins);
    TornNotices(s, s', a, order);
  }

  lemma FewerListed(s: State, s': State)
    requires ListedOk(s) == true && IdsApart(s) == true && SamePeople(s, s') == true && s'.seated == s.seated
    requires forall d :: d in s'.tables.clients ==> d in s.tables.clients && s'.tables.clients[d] == s.tables.clients[d]
    requires forall d :: d in s'.tables.webPeers ==> d in s.tables.webPeers && s'.tables.webPeers[d] == s.tables.webPeers[d]
    ensures ListedOk(s') == true && IdsApart(s') == true
  {
  }

  lemma TornListed(s: State, s': State, a: AgentId, now: int)
    requires a in s.agents && EndpointsOnline(s.tables) == true && ListedOk(s) == true && IdsApart(s) == true
    requires SamePeople(s, s') == true && s'.seated == s.seated
    requires s'.tables == TornTables(s, a, now)
    ensures EndpointsOnline(s'.tables) == true && ListedOk(s') == true && IdsApart(s') == true
    ensures s'.tables.clients.Keys <= s.tables.clients.Keys
  {
    TornTablesShape(s, a, now);
    FewerListed(s, s');
  }

  lemma FewerClients(s: State, s': State)
    requires WithinCapacity(s.tables, s.cfg.maxClients) && s'.cfg == s.cfg && s'.tables.clients.Keys <= s.tables.clients.Keys
    ensures WithinCapacity(s'.tables, s'.cfg.maxClients)
  {
    SubsetSize(s'.tables.clients.Keys, s.tables.clients.Keys);
  }

  lemma TornSeats(s: State, s': State, a: AgentId, order: seq<string>, now: int, coins: set<nat>)
    requires TornDown(s, s', a, order, now, coins) && TablesOk(s) == true && BoxesOk(s.mail) == true
    ensures TablesOk(s') == true
  {
    TornShape(s, s', a, order, now, coins);
    TornListed(s, s', a, now);
    FewerClients(s, s');
  }

  lemma TornPending(s: State, s': State, a: AgentId, order: seq<string>, now: int, coins: set<nat>)
    requires TornDown(s, s', a, order, now, coins) && EndpointsOnline(s.tables) == true && IdsApart(s) == true
    requires s.live.Keys == s.tables.pending.Keys
    ensures SamePeople(s, s') == true && s'.requests == s.requests && s'.taken == s.taken
    ensures s'.live.Keys == s'.tables.pending.Keys
    ensures forall k :: k in s'.live ==> k in s.live && s'.live[k] == s.live[k]
    ensures forall k :: k in s'.tables.pending ==>
              k in s.tables.pending && s'.tables.pending[k] == s.tables.pending[k]
  {
    TornTablesShape(s, a, now);
  }

  lemma TornRequests(s: State, s': State, a: AgentId, order: seq<string>, now: int, coins: set<nat>)
    requires TornDown(s, s', a, order, now, coins) && EndpointsOnline(s.tables) == true && IdsApart(s) == true && RequestsOk(s) == true
    ensures RequestsOk(s') == true
  {
    TornPending(s, s', a, order, now, coins);
    RequestsShrunk(s, s');
  }

  lemma FewerSessions(s: State, s': State)
    requires SessionsCreated(s) && s'.created == s.created
    requires forall sid :: sid in s'.tables.sessions ==>
               sid in s.tables.sessions && s'.tables.sessions[sid] == s.tables.sessions[sid]
    ensures SessionsCreated(s') == true
  {
  }

  lemma TornReady(s: State, s': State, a: AgentId, order: seq<string>, now: int, coins: set<nat>)
    requires TornDown(s, s', a, order, now, coins) == true && TablesReady(s) == true
    ensures TablesReady(s') == true
  {
    TornShape(s, s', a, order, now, coins);
    TornSeats(s, s', a, order, now, coins);
    TornRequests(s, s', a, order, now, coins);
    TornTablesShape(s, a, now);
    FewerSessions(s, s');
  }

  lemma TornLocal(s: State, s': State, a: AgentId, order: seq<string>, now: int, coins: set<nat>)
    requires TornDown(s, s', a, order, now, coins) == true && TablesOk(s) == true && BoxesOk(s.mail) == true
    requires CreatedOk(s) == true && ListedOk(s') == true
    ensures LocalStep(s, s', a) == true && CreationsReady(s, s') == true
  {
    TornShape(s, s', a, order, now, coins);
    TornMail(s, s', a, order, now, coins);
    ClosingLocal(s, s', a);
    NothingMade(s, s');
  }

  /** Close notices do not disturb where the handler of `a` itself stands. */
  lemma TornPosition(s: State, s': State, a: AgentId, order: seq<string>, now: int, coins: set<nat>)
    requires TornDown(s, s', a, order, now, coins) == true && TablesReady(s) == true && CreatedOk(s) == true && PcsOk(s) == true
    requires ListedOk(s') == true
    ensures PositionReady(s, s', a) == true
  {
    TornShape(s, s', a, order, now, coins);
    TornMail(s, s', a, order, now, coins);
    assert PcOk(s, a, s.agents[a].pc) == true;
    TornPc(s, s', a);
  }

  lemma ClosesAreQuiet(s: State, s': State, a: AgentId)
    requires s.mail.log <= s'.mail.log && OnlyCloses(s, s', a) == true
    ensures QuietFor(s, s', a) == true
  {
    forall i | |s.mail.log| <= i < |s'.mail.log| ensures s'.mail.log[i].envelope.kind == SessionClose {
      assert ClosesRemoved(s, s', s'.mail.log[i], a);
    }
  }

  lemma TornPc(s: State, s': State, a: AgentId)
    requires a in s.agents && PcOk(s, a, s.agents[a].pc) == true && Grows(s, s') == true && SamePeople(s, s') == true
    requires s'.created == s.created && s'.seated == s.seated
    requires SameSelf(s, s', a) == true && s'.agents[a].pc == s.agents[a].pc
    requires OnlyCloses(s, s', a) == true
    requires a + 1 in s.agents ==> NoShared(s.agents[a].pc, s.agents[a + 1].pc)
    ensures PcOk(s', a, s'.agents[a].pc) == true
  {
    ClosesAreQuiet(s, s', a);
    if s.agents[a].pc.Registering? { NotSeatedYet(s, a); }
    PcGrows(s, s', a + 1, a, s.agents[a].pc);
  }

  lemma TornSessions(s: State, a: AgentId, now: int)
    requires a in s.agents && EndpointsOnline(s.tables) == true && IdsApart(s) == true
    ensures var t := TornTables(s, a, now);
      t.sessions.Keys <= s.tables.sessions.Keys && s.tables.sessions.Keys - t.sessions.Keys == Ended(s, a)
  {
    TornTablesShape(s, a, now);
  }

  lemma NoticesEnd(s: State, s': State, a: AgentId, order: seq<string>, reason: string)
    requires Ends(s, s', a, order, reason) && s'.created == s.created
    ensures EndStep(s, s') == true
  {
  }

  lemma TornEnds(s: State, s': State, a: AgentId, order: seq<string>, now: int, coins: set<nat>)
    requires TornDown(s, s', a, order, now, coins) && TablesOk(s) == true && BoxesOk(s.mail) == true
    ensures EndStep(s, s') == true
  {
    TornShape(s, s', a, order, now, coins);
    TornSessions(s, a, now);
    NoticesEnd(s, s', a, order, TearDownReason(s.agents[a]));
  }

  lemma TornFalls(s: State, s': State, a: AgentId, order: seq<string>, now: int, coins: set<nat>)
    requires TornDown(s, s', a, order, now, coins) == true && TablesOk(s) == true && s.agents[a].phase != Torn
    ensures SeatStep(s, s') == true && FallStep(s, s') == true
  {
    TornTablesShape(s, a, now);
    assert Falls(s, s', a);
  }

  /** A tear-down frees no seat but its own, and its notices are for exactly
      the sessions that go. */
  lemma TornLawful(s: State, s': State, a: AgentId, order: seq<string>, now: int, coins: set<nat>)
    requires TornDown(s, s', a, order, now, coins) == true && TablesOk(s) == true && BoxesOk(s.mail) == true && s.agents[a].phase != Torn
    ensures Grows(s, s') == true && SeatStep(s, s') == true && FallStep(s, s') == true && EndStep(s, s') == true
  {
    TornShape(s, s', a, order, now, coins);
    TornEnds(s, s', a, order, now, coins);
    TornFalls(s, s', a, order, now, coins);
  }

  lemma TearDownKeeps(s: State, a: AgentId, order: seq<string>, now: int, coins: set<nat>)
    requires Inv(s) == true && a in s.agents && s.agents[a].phase != Torn && Enumerates(order, Ended(s, a))
    ensures Keeps(s, TearDown(s, a, order, now, coins)) == true
  {
    var s' := TearDown(s, a, order, now, coins);
    TornReady(s, s', a, order, now, coins);
    TornLocal(s, s', a, order, now, coins);
    TornPosition(s, s', a, order, now, coins);
    Assemble(s, s', a);
    TornLawful(s, s', a, order, now, coins);
  }

  // ----------------------------------------------------------------- arrivals

  /** A connection appears, or an existing one takes a message. */
  ghost predicate Arrived(s: State, s': State, a: AgentId, agent: Agent) {
    && s' == s.(agents := s.agents[a := agent], codes := s'.codes)
    && (a in s.agents ==>
          && agent.web == s.agents[a].web && s.agents[a].inbox <= agent.inbox
          && (s.agents[a].id != "" ==> agent.id == s.agents[a].id)
          && (s.agents[a].phase == Torn ==> agent.phase == Torn))
    && (agent.phase == Torn ==> a in s.agents && s.agents[a].phase == Torn)
  }

  lemma ArrivedLocal(s: State, s': State, a: AgentId, agent: Agent)
    requires Arrived(s, s', a, agent)
    ensures LocalStep(s, s', a) == true && CreationsReady(s, s') == true
  {
  }

  lemma ArrivedLawful(s: State, s': State, a: AgentId, agent: Agent)
    requires Arrived(s, s', a, agent)
    ensures Grows(s, s') == true && SeatStep(s, s') == true && FallStep(s, s') == true && EndStep(s, s') == true
  {
  }

  lemma ArrivedTables(s: State, s': State, a: AgentId, agent: Agent)
    requires Arrived(s, s', a, agent) && TablesReady(s) == true
    requires agent.web ==> agent.id != "" && forall b :: b in s.agents && b != a ==> s.agents[b].id != agent.id
    requires !agent.web ==> forall b :: b in s.agents && b != a && s.agents[b].web ==> s.agents[b].id != agent.id
    ensures TablesReady(s') == true
  {
    ArrivedListed(s, s', a, agent);
    ArrivedApart(s, s', a, agent);
    ArrivedRequests(s, s', a, agent);
  }

  lemma SeatsArrive(s: State, s': State, a: AgentId, agent: Agent, x: AgentId, id: string)
    requires Arrived(s, s', a, agent) && IsParty(s, x, id)
    ensures IsParty(s', x, id) && s'.agents[x].web == s.agents[x].web
  {
  }

  lemma ArrivedListed(s: State, s': State, a: AgentId, agent: Agent)
    requires Arrived(s, s', a, agent) == true && ListedOk(s)
    requires s'.tables == s.tables && s'.seated == s.seated
    ensures ListedOk(s') == true
  {
    forall x, id | IsParty(s, x, id) ensures IsParty(s', x, id) && s'.agents[x].web == s.agents[x].web {
      SeatsArrive(s, s', a, agent, x, id);
    }
  }

  lemma ArrivedApart(s: State, s': State, a: AgentId, agent: Agent)
    requires Arrived(s, s', a, agent) && IdsApart(s) == true
    requires agent.web ==> agent.id != "" && forall b :: b in s.agents && b != a ==> s.agents[b].id != agent.id
    requires !agent.web ==> forall b :: b in s.agents && b != a && s.agents[b].web ==> s.agents[b].id != agent.id
    ensures IdsApart(s') == true
  {
  }

  lemma ArrivedRequests(s: State, s': State, a: AgentId, agent: Agent)
    requires Arrived(s, s', a, agent) && RequestsOk(s) == true
    ensures RequestsOk(s') == true
  {
  }

  lemma ArrivedKeeps(s: State, s': State, a: AgentId, agent: Agent)
    requires Inv(s) == true && Arrived(s, s', a, agent) == true
    requires TablesReady(s') == true && PositionReady(s, s', a) == true
    ensures Keeps(s, s') == true
  {
    ArrivedLocal(s, s', a, agent);
    ArrivedLawful(s, s', a, agent);
    Assemble(s, s', a);
  }

  lemma ConnectKeeps(s: State, a: AgentId)
    requires Inv(s) == true && Enabled(s, Connect(a))
    ensures Keeps(s, Apply(s, Connect(a))) == true
  {
    var agent := Agent(false, "", "", "", Open, [], Idle, "", "", "");
    var s' := s.(agents := s.agents[a := agent]);
    ArrivedTables(s, s', a, agent);
    IdlePosition(s, s', a);
    ArrivedKeeps(s, s', a, agent);
  }

  lemma VisitPosition(s: State, s': State, a: AgentId)
    requires a in s'.agents && s'.agents[a].pc.WebCheck? && Visiting(s'.agents[a])
    ensures PositionReady(s, s', a) == true
  {
  }

  lemma VisitKeeps(s: State, a: AgentId, id: string, token: string, now: int)
    requires Inv(s) == true && Enabled(s, Visit(a, id, token, now))
    ensures Keeps(s, Apply(s, Visit(a, id, token, now))) == true
  {
    var s' := Apply(s, Visit(a, id, token, now));
    var agent := s'.agents[a];
    ArrivedTables(s, s', a, agent);
    VisitPosition(s, s', a);
    ArrivedKeeps(s, s', a, agent);
  }

  // ------------------------------------------------------------------ messages

  /** Everything `a` did before belongs to messages it had taken before. */
  lemma FreshMessage(s: State, s': State, a: AgentId, agent: Agent)
    requires Arrived(s, s', a, agent) && a in s.agents && |agent.inbox| > |s.agents[a].inbox|
    requires CreatedOk(s) && InOrder(s)
    ensures NoneMadeYet(s', a) && NoTrafficYet(s', a)
  {
    forall sid | sid in s'.created && s'.created[sid].source == a
      ensures s'.created[sid].index < |s'.agents[a].inbox|
    {
      assert CreationOk(s, sid);
    }
  }

  /** A connection without an id has sent no traffic and was never listed. */
  lemma FreshName(s: State, s': State, a: AgentId, agent: Agent)
    requires Arrived(s, s', a, agent) && LogOk(s) && ListedOk(s)
    requires a in s.agents && s.agents[a].id == "" && !agent.web && agent.id != ""
    ensures Newcoming(s', a)
  {
    forall i | 0 <= i < |s'.mail.log| && s'.mail.log[i].source == a
      ensures !IsSessionTraffic(s'.mail.log[i].envelope.kind)
    {
      assert SentOk(s, s.mail.log[i]);
    }
  }

  /** `msg` is the last message `a` took, and it has done nothing with it. */
  predicate JustTook(s': State, a: AgentId, agent: Agent, msg: Envelope) {
    && a in s'.agents && NoneMadeYet(s', a) && NoTrafficYet(s', a)
    && s'.agents[a].inbox != [] && s'.agents[a].inbox[|s'.agents[a].inbox| - 1] == msg
    && s'.agents[a].web == agent.web
  }

  /** The position after the checks at the entry of a handler. */
  lemma VisitorEntryOk(s': State, a: AgentId, agent: Agent, msg: Envelope)
    requires JustTook(s', a, agent, msg) && agent.web
    ensures PcOk(s', a, VisitorEntry(a, agent, msg)) == true && !VisitorEntry(a, agent, msg).CnfCreate?
  {
    RefusedOk(s', a, agent);
    PongOk(s', a, agent.id, msg.payload);
    if IsSessionTraffic(msg.kind) { assert Forwarding(s', a, msg); }
  }

  lemma PongOk(s': State, a: AgentId, id: string, payload: Payload)
    requires a in s'.agents
    ensures PcOk(s', a, Offer(a, Envelope(HeartbeatPong, "", RELAY, id, payload), Report)) == true
  {
  }

  lemma RegisteredEntryOk(s': State, a: AgentId, agent: Agent, msg: Envelope)
    requires JustTook(s', a, agent, msg) && !agent.web && agent.id != "" && s'.agents[a].id == agent.id
    ensures PcOk(s', a, RegisteredEntry(a, agent, msg)) == true && !RegisteredEntry(a, agent, msg).CnfCreate?
  {
    RefusedOk(s', a, agent);
    if msg.kind == SessionConfirm && msg.payload.Confirm? {
      assert Confirming(s', a, ConfirmPeer(msg), msg.payload);
    }
    if msg.kind == SessionRequest && msg.payload.Request? && msg.payload.target != "" {
      assert RequestOk(s', a, msg.payload);
    }
  }

  lemma DeviceEntryOk(cfg: Config, s': State, a: AgentId, agent: Agent, msg: Envelope)
    requires JustTook(s', a, agent, msg) && !agent.web
    requires agent.id != "" ==> s'.agents[a].id == agent.id
    requires DeviceEntry(cfg, a, agent, msg).Registering? ==> Newcoming(s', a)
    ensures PcOk(s', a, DeviceEntry(cfg, a, agent, msg)) == true && !DeviceEntry(cfg, a, agent, msg).CnfCreate?
  {
    RefusedOk(s', a, agent);
    if agent.id != "" { RegisteredEntryOk(s', a, agent, msg); }
  }

  lemma ReceivedShape(s: State, a: AgentId, msg: Envelope, now: int)
    requires a in s.agents && Enabled(s, Recv(a, msg, now))
    ensures var s' := Receive(s, a, msg, now);
      && a in s'.agents && Arrived(s, s', a, s'.agents[a])
      && s'.agents[a].inbox == s.agents[a].inbox + [msg]
      && s'.agents[a].pc == Entry(s.cfg, a, s.agents[a], msg)
      && (s'.agents[a].id == s.agents[a].id
          || (!s.agents[a].web && s.agents[a].pc.Idle? && s'.agents[a].id != ""
              && forall b :: b in s.agents && s.agents[b].web ==> s.agents[b].id != s'.agents[a].id))
      && (DeviceEntry(s.cfg, a, s.agents[a], msg).Registering? && !s.agents[a].web && msg.payload.Registration? ==>
            s'.agents[a].id == msg.payload.deviceId)
  {
  }

  lemma ReceivedPosition(s: State, s': State, a: AgentId, msg: Envelope, now: int)
    requires CreatedOk(s) && InOrder(s) && LogOk(s) && ListedOk(s)
    requires Enabled(s, Recv(a, msg, now)) && s' == Receive(s, a, msg, now)
    ensures PositionReady(s, s', a) == true
  {
    ReceivedShape(s, a, msg, now);
    var agent := s.agents[a];
    FreshMessage(s, s', a, s'.agents[a]);
    if agent.web {
      VisitorEntryOk(s', a, agent, msg);
    } else {
      if DeviceEntry(s.cfg, a, agent, msg).Registering? { FreshName(s, s', a, s'.agents[a]); }
      DeviceEntryOk(s.cfg, s', a, agent, msg);
    }
  }

  lemma ReceivedTables(s: State, s': State, a: AgentId, msg: Envelope, now: int)
    requires TablesReady(s) == true && Enabled(s, Recv(a, msg, now)) && s' == Receive(s, a, msg, now)
    ensures TablesReady(s') == true
  {
    ReceivedShape(s, a, msg, now);
    ArrivedTables(s, s', a, s'.agents[a]);
  }

  lemma ReceiveKeeps(s: State, a: AgentId, msg: Envelope, now: int)
    requires Inv(s) == true && Enabled(s, Recv(a, msg, now))
    ensures Keeps(s, Receive(s, a, msg, now)) == true
  {
    var s' := Receive(s, a, msg, now);
    ReceivedShape(s, a, msg, now);
    ReceivedPosition(s, s', a, msg, now);
    ReceivedTables(s, s', a, msg, now);
    ArrivedKeeps(s, s', a, s'.agents[a]);
  }

  // -------------------------------------------------------------- small events

  lemma StartCloseShape(s: State, s': State, a: AgentId)
    requires a in s.agents && s.agents[a].phase == Open
    requires s' == s.(agents := s.agents[a := s.agents[a].(phase := Closing)])
    ensures Grows(s, s') == true && SamePeople(s, s') == true && SameSelf(s, s', a) == true && OnlyCloses(s, s', a) == true
  {
  }

  lemma StartClosePosition(s: State, s': State, a: AgentId)
    requires PcsOk(s) == true && a in s.agents && s.agents[a].phase == Open
    requires s' == s.(agents := s.agents[a := s.agents[a].(phase := Closing)])
    ensures PositionReady(s, s', a) == true
  {
    assert PcOk(s, a, s.agents[a].pc) == true;
    StartCloseShape(s, s', a);
    TornPc(s, s', a);
  }

  lemma StartCloseTables(s: State, s': State, a: AgentId)
    requires TablesReady(s) == true && a in s.agents && s' == s.(agents := s.agents[a := s.agents[a].(phase := Closing)])
    ensures TablesReady(s') == true
  {
    SeatsKept(s, s');
    RequestsKept(s, s');
  }

  lemma StartCloseKeeps(s: State, a: AgentId)
    requires Inv(s) == true && a in s.agents && s.agents[a].phase == Open
    ensures Keeps(s, s.(agents := s.agents[a := s.agents[a].(phase := Closing)])) == true
  {
    var s' := s.(agents := s.agents[a := s.agents[a].(phase := Closing)]);
    StartClosePosition(s, s', a);
    StartCloseTables(s, s', a);
    ArrivedKeeps(s, s', a, s'.agents[a]);
  }

  /** No handler moves: something is written to a connection, or a link looked up. */
  ghost predicate Unmoved(s: State, s': State) {
    && s' == s.(mail := s.mail.(boxes := s'.mail.boxes), tables := s.tables.(shares := s'.tables.shares))
    && BoxesOk(s'.mail)
  }

  lemma WroteUnmoved(s: State, a: AgentId)
    requires BoxesOk(s.mail) && Enabled(s, Write(a))
    ensures Unmoved(s, Apply(s, Write(a))) == true
  {
  }

  lemma PeekUnmoved(s: State, token: string, now: int)
    requires BoxesOk(s.mail)
    ensures Unmoved(s, Apply(s, Peek(token, now))) == true
  {
  }

  lemma UnmovedPc(s: State, s': State, b: AgentId)
    requires Unmoved(s, s') && b in s.agents && PcOk(s, b, s.agents[b].pc) == true
    requires b + 1 in s.agents ==> NoShared(s.agents[b].pc, s.agents[b + 1].pc)
    ensures PcOk(s', b, s'.agents[b].pc) == true
  {
    assert Grows(s, s') && NewCreations(s, s', b + 1) && QuietFor(s, s', b) && SameSelf(s, s', b);
    PcGrows(s, s', b + 1, b, s.agents[b].pc);
  }

  lemma UnmovedPcs(s: State, s': State)
    requires Unmoved(s, s') && PcsOk(s)
    ensures PcsOk(s') == true
  {
    forall b | b in s'.agents ensures PcOk(s', b, s'.agents[b].pc) { UnmovedPc(s, s', b); }
  }

  lemma UnmovedHistory(s: State, s': State)
    requires Unmoved(s, s') && TablesOk(s) == true && RequestsOk(s) == true && ReadyOnce(s) == true && InOrder(s) == true
    ensures TablesOk(s') == true && RequestsOk(s') == true && ReadyOnce(s') == true && InOrder(s') == true
  {
    SeatsKept(s, s');
    RequestsKept(s, s');
  }

  lemma UnmovedCreated(s: State, s': State)
    requires Unmoved(s, s') && Grows(s, s') == true && CreatedOk(s)
    ensures CreatedOk(s') == true
  {
    CreationsGrow(s, s');
  }

  lemma UnmovedLog(s: State, s': State)
    requires Unmoved(s, s') && Grows(s, s') == true && LogOk(s) == true
    ensures LogOk(s') == true
  {
    LogGrows(s, s', 0);
  }

  lemma UnmovedLawful(s: State, s': State)
    requires Unmoved(s, s')
    ensures Grows(s, s') == true && SeatStep(s, s') == true && FallStep(s, s') == true && EndStep(s, s') == true
  {
  }

  lemma UnmovedKeeps(s: State, s': State)
    requires Inv(s) == true && Unmoved(s, s')
    ensures Keeps(s, s') == true
  {
    UnmovedPcs(s, s');
    UnmovedHistory(s, s');
    UnmovedLawful(s, s');
    UnmovedCreated(s, s');
    UnmovedLog(s, s');
  }

  lemma UnmovedStepKeeps(s: State, e: Event)
    requires Inv(s) == true && Enabled(s, e) && (e.Write? || e.Peek?)
    ensures Keeps(s, Apply(s, e)) == true
  {
    if e.Write? { WroteUnmoved(s, e.a); } else { PeekUnmoved(s, e.token, e.now); }
    UnmovedKeeps(s, Apply(s, e));
  }

  // ---------------------------------------------------------------- every step

  /** Which function a section is, apart from any invariant. */
  lemma RunsConfirm(s: State, a: AgentId, c: Choice)
    requires a in s.agents && Runnable(s, a, c)
    requires s.agents[a].pc.CnfDecline? || s.agents[a].pc.CnfConsume?
    ensures var pc := s.agents[a].pc;
      && (pc.CnfDecline? ==> Run(s, a, c) == Declining(s, a, pc.peerId))
      && (pc.CnfConsume? ==> Run(s, a, c) == Accepting(s, a, pc.peerId, pc.confirm, pc.peer))
  {
  }

  lemma ProceedDeclineKeeps(s: State, a: AgentId, c: Choice)
    requires Inv(s) == true && a in s.agents && Runnable(s, a, c) == true
    requires s.agents[a].pc.CnfDecline?
    ensures Keeps(s, Run(s, a, c)) == true
  {
    JustifiedPc(s, a);
    RunsConfirm(s, a, c);
    DecliningKeeps(s, a, s.agents[a].pc.peerId, s.agents[a].pc.confirm);
  }

  lemma ProceedConsumeKeeps(s: State, a: AgentId, c: Choice)
    requires Inv(s) == true && a in s.agents && Runnable(s, a, c) == true
    requires s.agents[a].pc.CnfConsume?
    ensures Keeps(s, Run(s, a, c)) == true
  {
    JustifiedPc(s, a);
    RunsConfirm(s, a, c);
    AcceptingKeeps(s, a, s.agents[a].pc.peerId, s.agents[a].pc.confirm, s.agents[a].pc.peer);
  }

  lemma RunsCreate(s: State, a: AgentId, c: Choice)
    requires a in s.agents && Runnable(s, a, c)
    requires s.agents[a].pc.CnfCreate?
    ensures Run(s, a, c) == Creating(s, a, s.agents[a].pc, c)
  {
  }

  lemma ProceedCreateKeeps(s: State, a: AgentId, c: Choice)
    requires Inv(s) == true && a in s.agents && Runnable(s, a, c) == true
    requires s.agents[a].pc.CnfCreate?
    ensures Keeps(s, Run(s, a, c)) == true
  {
    JustifiedPc(s, a);
    RunsCreate(s, a, c);
    CreatingKeeps(s, a, s.agents[a].pc, c);
  }

  lemma RunsOffer(s: State, a: AgentId, c: Choice)
    requires a in s.agents && Runnable(s, a, c)
    requires s.agents[a].pc.Offer? || s.agents[a].pc.FwdTouch?
    ensures var pc := s.agents[a].pc;
      && (pc.Offer? ==> Run(s, a, c) == Offered(s, a, pc.target, pc.envelope, pc.next, c.coins))
      && (pc.FwdTouch? ==> Run(s, a, c) == Touching(s, a, pc.target, pc.envelope, c.now))
  {
  }

  lemma ProceedOfferKeeps(s: State, a: AgentId, c: Choice)
    requires Inv(s) == true && a in s.agents && Runnable(s, a, c) == true
    requires s.agents[a].pc.Offer?
    ensures Keeps(s, Run(s, a, c)) == true
  {
    JustifiedPc(s, a);
    RunsOffer(s, a, c);
    OfferedKeeps(s, a, s.agents[a].pc.target, s.agents[a].pc.envelope, s.agents[a].pc.next, c.coins);
  }

  lemma ProceedTouchKeeps(s: State, a: AgentId, c: Choice)
    requires Inv(s) == true && a in s.agents && Runnable(s, a, c) == true
    requires s.agents[a].pc.FwdTouch?
    ensures Keeps(s, Run(s, a, c)) == true
  {
    JustifiedPc(s, a);
    RunsOffer(s, a, c);
    TouchingKeeps(s, a, s.agents[a].pc.target, s.agents[a].pc.envelope, c.now);
  }

  lemma RunsClose(s: State, a: AgentId, c: Choice)
    requires a in s.agents && Runnable(s, a, c)
    requires s.agents[a].pc.CloseOne?
    ensures Run(s, a, c) == Removing(s, a, s.agents[a].pc.sid, CloseReason(s.agents[a]), c.coins)
  {
  }

  lemma ProceedCloseKeeps(s: State, a: AgentId, c: Choice)
    requires Inv(s) == true && a in s.agents && Runnable(s, a, c) == true
    requires s.agents[a].pc.CloseOne?
    ensures Keeps(s, Run(s, a, c)) == true
  {
    JustifiedPc(s, a);
    RunsClose(s, a, c);
    RemovingKeeps(s, a, s.agents[a].pc.sid, CloseReason(s.agents[a]), c.coins);
  }

  lemma RunsRequest(s: State, a: AgentId, c: Choice)
    requires a in s.agents && Runnable(s, a, c)
    requires s.agents[a].pc.ReqCheck? || s.agents[a].pc.ReqStore?
    ensures var pc := s.agents[a].pc;
      && (pc.ReqCheck? ==> Run(s, a, c) == Checking(s, a, pc.target, pc.request, c.now))
      && (pc.ReqStore? ==> Run(s, a, c) == StoringRequest(s, a, pc.target, pc.request, c.now))
  {
  }

  lemma ProceedCheckKeeps(s: State, a: AgentId, c: Choice)
    requires Inv(s) == true && a in s.agents && Runnable(s, a, c) == true
    requires s.agents[a].pc.ReqCheck?
    ensures Keeps(s, Run(s, a, c)) == true
  {
    JustifiedPc(s, a);
    RunsRequest(s, a, c);
    CheckingKeeps(s, a, s.agents[a].pc.target, s.agents[a].pc.request, c.now);
  }

  lemma ProceedStoreKeeps(s: State, a: AgentId, c: Choice)
    requires Inv(s) == true && a in s.agents && Runnable(s, a, c) == true
    requires s.agents[a].pc.ReqStore?
    ensures Keeps(s, Run(s, a, c)) == true
  {
    JustifiedPc(s, a);
    RunsRequest(s, a, c);
    StoringRequestKeeps(s, a, s.agents[a].pc.target, s.agents[a].pc.request, c.now);
  }

  lemma RunsJoin(s: State, a: AgentId, c: Choice)
    requires a in s.agents && Runnable(s, a, c)
    requires s.agents[a].pc.WebJoin? || s.agents[a].pc.WebStore?
    ensures var pc := s.agents[a].pc;
      && (pc.WebJoin? ==> Run(s, a, c) == Joining(s, a, pc.target))
      && (pc.WebStore? ==> Run(s, a, c) == StoringVisit(s, a, pc.target, c.now))
  {
  }

  lemma ProceedJoinKeeps(s: State, a: AgentId, c: Choice)
    requires Inv(s) == true && a in s.agents && Runnable(s, a, c) == true
    requires s.agents[a].pc.WebJoin?
    ensures Keeps(s, Run(s, a, c)) == true
  {
    JustifiedPc(s, a);
    RunsJoin(s, a, c);
    JoiningKeeps(s, a, s.agents[a].pc.target);
  }

  lemma ProceedVisitKeeps(s: State, a: AgentId, c: Choice)
    requires Inv(s) == true && a in s.agents && Runnable(s, a, c) == true
    requires s.agents[a].pc.WebStore?
    ensures Keeps(s, Run(s, a, c)) == true
  {
    JustifiedPc(s, a);
    RunsJoin(s, a, c);
    StoringVisitKeeps(s, a, s.agents[a].pc.target, c.now);
  }

  lemma RunsRegister(s: State, a: AgentId, c: Choice)
    requires a in s.agents && Runnable(s, a, c)
    requires s.agents[a].pc.Registering?
    ensures Run(s, a, c) == Admitting(s, a)
  {
  }

  lemma ProceedRegisterKeeps(s: State, a: AgentId, c: Choice)
    requires Inv(s) == true && a in s.agents && Runnable(s, a, c) == true
    requires s.agents[a].pc.Registering?
    ensures Keeps(s, Run(s, a, c)) == true
  {
    JustifiedPc(s, a);
    RunsRegister(s, a, c);
    RegisteringFacts(s, a);
    AdmittingKeeps(s, a);
  }

  lemma RunsShare(s: State, a: AgentId, c: Choice)
    requires a in s.agents && Runnable(s, a, c)
    requires s.agents[a].pc.ShareCreate? || s.agents[a].pc.ShareList? || s.agents[a].pc.ShareRevoke? || s.agents[a].pc.WebCheck?
    ensures Run(s, a, c) == Sharing(s, a, c)
  {
  }

  lemma ProceedShareKeeps(s: State, a: AgentId, c: Choice)
    requires Inv(s) == true && a in s.agents && Runnable(s, a, c) == true
    requires s.agents[a].pc.ShareCreate? || s.agents[a].pc.ShareList? || s.agents[a].pc.ShareRevoke? || s.agents[a].pc.WebCheck?
    ensures Keeps(s, Run(s, a, c)) == true
  {
    JustifiedPc(s, a);
    RunsShare(s, a, c);
    SharedPc(s, a, c);
    SharingKeeps(s, a, c);
  }

  lemma RegisteringFacts(s: State, a: AgentId)
    requires a in s.agents && s.agents[a].pc.Registering? && PcOk(s, a, s.agents[a].pc) == true
    ensures IsDevice(s, a, s.agents[a].id)
  {
  }

  lemma ProceedSessionKeeps(s: State, a: AgentId, c: Choice)
    requires Inv(s) == true && a in s.agents && Runnable(s, a, c) == true
    requires var pc := s.agents[a].pc;
      pc.CnfDecline? || pc.CnfConsume? || pc.CnfCreate? || pc.Offer? || pc.FwdTouch? || pc.CloseOne?
    ensures Keeps(s, Run(s, a, c)) == true
  {
    var pc := s.agents[a].pc;
    if pc.CnfDecline? {
      ProceedDeclineKeeps(s, a, c);
    } else if pc.CnfConsume? {
      ProceedConsumeKeeps(s, a, c);
    } else if pc.CnfCreate? {
      ProceedCreateKeeps(s, a, c);
    } else if pc.CloseOne? {
      ProceedCloseKeeps(s, a, c);
    } else if pc.FwdTouch? {
      ProceedTouchKeeps(s, a, c);
    } else {
      ProceedOfferKeeps(s, a, c);
    }
  }

  lemma ProceedEntryKeeps(s: State, a: AgentId, c: Choice)
    requires Inv(s) == true && a in s.agents && Runnable(s, a, c) == true
    requires var pc := s.agents[a].pc;
      pc.ReqCheck? || pc.ReqStore? || pc.WebJoin? || pc.WebStore? || pc.Registering?
      || pc.ShareCreate? || pc.ShareList? || pc.ShareRevoke? || pc.WebCheck?
    ensures Keeps(s, Run(s, a, c)) == true
  {
    var pc := s.agents[a].pc;
    if pc.ReqCheck? {
      ProceedCheckKeeps(s, a, c);
    } else if pc.ReqStore? {
      ProceedStoreKeeps(s, a, c);
    } else if pc.WebJoin? {
      ProceedJoinKeeps(s, a, c);
    } else if pc.WebStore? {
      ProceedVisitKeeps(s, a, c);
    } else if pc.Registering? {
      ProceedRegisterKeeps(s, a, c);
    } else {
      ProceedShareKeeps(s, a, c);
    }
  }

  lemma ProceedKeeps(s: State, a: AgentId, c: Choice)
    requires Inv(s) == true && a in s.agents && Runnable(s, a, c) == true
    ensures Keeps(s, Run(s, a, c)) == true
  {
    var pc := s.agents[a].pc;
    if pc.CnfDecline? || pc.CnfConsume? || pc.CnfCreate? || pc.Offer? || pc.FwdTouch? || pc.CloseOne? {
      ProceedSessionKeeps(s, a, c);
    } else if IsLookup(pc) {
      LookupKeeps(s, a, c);
    } else {
      ProceedEntryKeeps(s, a, c);
    }
  }

  /** Every event keeps the invariant. */
  lemma StepKeeps(s: State, e: Event)
    requires Inv(s) == true && Enabled(s, e)
    ensures Keeps(s, Apply(s, e)) == true
  {
    match e
    case Connect(a) => ConnectKeeps(s, a);
    case Visit(a, id, token, now) => VisitKeeps(s, a, id, token, now);
    case Recv(a, msg, now) => ReceiveKeeps(s, a, msg, now);
    case Proceed(a, c) => ProceedKeeps(s, a, c);
    case StartClose(a) => StartCloseKeeps(s, a);
    case FinishClose(a, order, now, coins) => TearDownKeeps(s, a, order, now, coins);
    case Write(_) | Peek(_, _) => UnmovedStepKeeps(s, e);
  }

  lemma InitialInv(cfg: Config)
    ensures Inv(Initial(cfg))
  {
  }

  /** Safety over whole runs: every state of every run meets the invariant. */
  lemma {:induction false} RunsKeepInvariant(cfg: Config, states: seq<State>, events: seq<Event>, n: nat)
    requires IsRun(cfg, states, events) && n < |states|
    ensures Inv(states[n]) == true
  {
    if n == 0 {
      InitialInv(cfg);
    } else {
      RunsKeepInvariant(cfg, states, events, n - 1);
      StepKeeps(states[n - 1], events[n - 1]);
    }
  }
}
