/** Registrations, codes, links, visitors and all the rest, handled without
    interruption. */
module RelayAloneOthers {
  import opened Protocol
  import opened Registry
  import opened RelaySystem
  import opened RelaySteps
  import opened RelayRuns
  import opened RelayAlone
  import AuthCode
  import PendingMap
  import WebShares

  // ----------------------------------------------------------------- registrations

  /** The device as it is once it has sent a lawful registration. */
  function Named(agent: Agent, msg: Envelope): Agent
    requires msg.payload.Registration?
  {
    agent.(id := msg.payload.deviceId, name := msg.payload.deviceName,
           role := if msg.payload.role == "" then ROLE_PEER else msg.payload.role,
           inbox := agent.inbox + [msg])
  }

  predicate IsLawful(s: State, msg: Envelope) {
    && msg.payload.Registration? && msg.payload.deviceId != ""
    && (s.cfg.sharedToken == "" || msg.payload.token == s.cfg.sharedToken)
  }

  lemma Admits(s: State, a: AgentId, msg: Envelope, s1: State, cs: seq<Choice>) returns (s': State)
    requires a in s.agents && |cs| >= 2 && IsLawful(s, msg) && s.agents[a].pc.Idle?
    requires s1 == s.(agents := s.agents[a := Named(s.agents[a], msg).(pc := Registering)])
    ensures Leads(s1, a, cs, s') == true && Registered(s, s', a, msg) == true
  {
    RunsRegister(s1, a, cs[0]);
    var s2 := Admitting(s1, a);
    if s.cfg.maxClients > 0 && |s.tables.clients| >= s.cfg.maxClients {
      s' := TooMany(s, a, msg, s2, cs[1..]);
    } else {
      s' := s2;
      LeadsNowhere(s', a, cs[1..]);
    }
    LeadsOn(s1, a, cs, s2, s');
  }

  lemma TooMany(s: State, a: AgentId, msg: Envelope, s2: State, cs: seq<Choice>) returns (s': State)
    requires a in s.agents && cs != [] && IsLawful(s, msg)
    requires s.cfg.maxClients > 0 && |s.tables.clients| >= s.cfg.maxClients
    requires var named := Named(s.agents[a], msg); s2 == s.(agents := s.agents[a := named.(pc := Failing(a, named))])
    requires s.agents[a].pc.Idle?
    ensures Leads(s2, a, cs, s') == true && Registered(s, s', a, msg) == true
  {
    s' := RefusesAfter(s2, a, cs);
    assert s'.agents == s.agents[a := Named(s.agents[a], msg)];
  }

  /** The id and names are set in any case.  With a full relay there is an error reply;
      otherwise the device is listed under the id, and waits if it has displaced
      another connection. */
  predicate Registered(s: State, s': State, a: AgentId, msg: Envelope)
    requires a in s.agents && msg.payload.Registration?
  {
    var id, named := msg.payload.deviceId, Named(s.agents[a], msg);
    if s.cfg.maxClients > 0 && |s.tables.clients| >= s.cfg.maxClients then
      && s'.agents == s.agents[a := named] && s'.tables == s.tables
      && s'.mail.log == s.mail.log
           + [Sent(a, Envelope(ErrorReply, "", RELAY, id, Note("message_failed")), a, |s.agents[a].inbox| + 1)]
    else
      && s'.tables == s.tables.(clients := s.tables.clients[id := a]) && s'.mail == s.mail
      && s'.agents == s.agents[a := named.(pc :=
           if id in s.tables.clients && s.tables.clients[id] != a then ClosingOther(s.tables.clients[id]) else Idle)]
  }

  /** What the registration of a device comes to, from any state, before it waits for
      a connection it has displaced. */
  lemma RegistrationAlone(s: State, a: AgentId, msg: Envelope, now: int, cs: seq<Choice>) returns (s': State)
    requires a in s.agents && s.agents[a].pc.Idle? && !s.agents[a].web && msg.kind == DeviceRegister && |cs| >= 2
    ensures Leads(Receive(s, a, msg, now), a, cs, s')
    ensures if IsLawful(s, msg) then Registered(s, s', a, msg) else Refused(s, s', a, msg)
  {
    if IsLawful(s, msg) {
      var s1 := s.(agents := s.agents[a := Named(s.agents[a], msg).(pc := Registering)]);
      assert Receive(s, a, msg, now) == s1;
      s' := Admits(s, a, msg, s1, cs);
    } else {
      assert Receive(s, a, msg, now) == Heard(s, a, msg, Failing(a, s.agents[a]));
      s' := Refuses(s, a, msg, cs);
    }
  }

  // ------------------------------------------------------------------------- codes

  /** A registered device publishes six digits: they are stored for its connection,
      for the lifetime asked for as far as the bounds allow.  Anything else gets an
      error reply. */
  lemma PublishAlone(s: State, a: AgentId, msg: Envelope, now: int, cs: seq<Choice>) returns (s': State)
    requires a in s.agents && s.agents[a].pc.Idle? && !s.agents[a].web && msg.kind == AuthCodePublish && cs != []
    ensures Leads(Receive(s, a, msg, now), a, cs, s')
    ensures if s.agents[a].id != "" && msg.payload.AuthCode? && AuthCode.IsSixDigits(msg.payload.code)
            then Done(s, s', a, msg) && s'.tables == s.tables && s'.mail == s.mail
                 && s'.codes == s.codes[a := AuthCode.Slot(msg.payload.code, now + AuthCode.CodeTtl(msg.payload.codeTtlMillis))]
            else Refused(s, s', a, msg)
  {
    if s.agents[a].id != "" && msg.payload.AuthCode? && AuthCode.IsSixDigits(msg.payload.code) {
      s' := Receive(s, a, msg, now);
      LeadsNowhere(s', a, cs);
    } else {
      assert Receive(s, a, msg, now) == Heard(s, a, msg, Failing(a, s.agents[a]));
      s' := Refuses(s, a, msg, cs);
    }
  }

  // ------------------------------------------------------------------------- links

  lemma SharesOn(s: State, a: AgentId, msg: Envelope, pc: Pc, shares: WebShares.Table, onward: Pc, cs: seq<Choice>, s': State)
    requires a in s.agents && cs != [] && (pc.ShareCreate? || pc.ShareList? || pc.ShareRevoke?)
    requires Runnable(Heard(s, a, msg, pc), a, cs[0]) == true
    requires Sharing(Heard(s, a, msg, pc), a, cs[0]) == Heard(s.(tables := s.tables.(shares := shares)), a, msg, onward)
    requires Leads(Heard(s.(tables := s.tables.(shares := shares)), a, msg, onward), a, cs[1..], s') == true
    ensures Leads(Heard(s, a, msg, pc), a, cs, s') == true
  {
    var s1 := Heard(s, a, msg, pc);
    RunsShare(s1, a, cs[0]);
    LeadsOn(s1, a, cs, Heard(s.(tables := s.tables.(shares := shares)), a, msg, onward), s');
  }

  /** The handler is done and only the links are different. */
  predicate LinksOnly(s: State, s': State, a: AgentId, msg: Envelope) {
    && Done(s, s', a, msg)
    && s' == s.(agents := s'.agents, tables := s.tables.(shares := s'.tables.shares))
  }

  lemma SharesAndRests(s: State, a: AgentId, msg: Envelope, pc: Pc, shares: WebShares.Table, cs: seq<Choice>) returns (s': State)
    requires a in s.agents && s.agents[a].pc.Idle? && cs != [] && (pc.ShareCreate? || pc.ShareList? || pc.ShareRevoke?)
    requires Runnable(Heard(s, a, msg, pc), a, cs[0]) == true
    requires Sharing(Heard(s, a, msg, pc), a, cs[0]) == Heard(s.(tables := s.tables.(shares := shares)), a, msg, Idle)
    ensures Leads(Heard(s, a, msg, pc), a, cs, s') == true && LinksOnly(s, s', a, msg) == true && s'.tables.shares == shares
  {
    s' := Heard(s.(tables := s.tables.(shares := shares)), a, msg, Idle);
    LeadsNowhere(s', a, cs[1..]);
    SharesOn(s, a, msg, pc, shares, Idle, cs, s');
    assert s'.agents == s.agents[a := s.agents[a].(inbox := s.agents[a].inbox + [msg])];
  }

  /** A registered device creates a link: stored under the fresh token, for this
      device, in the mode asked for, view-control only if it asked for just that. */
  lemma LinkAlone(s: State, a: AgentId, msg: Envelope, now: int, cs: seq<Choice>) returns (s': State)
    requires a in s.agents && s.agents[a].pc.Idle? && !s.agents[a].web && msg.kind == WebShareCreate && cs != []
    requires cs[0].freshToken !in s.tables.shares && cs[0].freshToken != ""
    ensures Leads(Receive(s, a, msg, now), a, cs, s')
    ensures if s.agents[a].id != "" && msg.payload.ShareSpec? then
              && LinksOnly(s, s', a, msg) && cs[0].freshToken in s'.tables.shares
              && s'.tables.shares == s.tables.shares[cs[0].freshToken := s'.tables.shares[cs[0].freshToken]]
              && var share := s'.tables.shares[cs[0].freshToken];
              && share.id == cs[0].freshId && share.token == cs[0].freshToken
              && share.controlledId == s.agents[a].id && share.controlledName == s.agents[a].name
              && share.shareLabel == msg.payload.shareLabel && IsMode(share.mode)
              && (share.mode == MODE_VIEW_CONTROL <==> msg.payload.shareMode == MODE_VIEW_CONTROL)
              && share.createdAt == cs[0].now && share.expiresAt == cs[0].now + WebShares.ShareTtl(msg.payload.shareTtlMillis)
              && !share.revoked
            else Refused(s, s', a, msg)
  {
    if s.agents[a].id != "" && msg.payload.ShareSpec? {
      var pc := ShareCreate(msg.payload);
      var s1 := Heard(s, a, msg, pc);
      Hears(s, a, msg, now, pc);
      s' := SharesAndRests(s, a, msg, pc, WebShares.Apply(s.tables.shares, ShareOp(s1.agents[a], cs[0])), cs);
    } else {
      Hears(s, a, msg, now, Failing(a, s.agents[a]));
      s' := Refuses(s, a, msg, cs);
    }
  }

  /** A registered device lists its links: every revoked or expired one goes from the
      table, whoever's it was, and nothing else. */
  lemma ListingAlone(s: State, a: AgentId, msg: Envelope, now: int, cs: seq<Choice>) returns (s': State)
    requires a in s.agents && s.agents[a].pc.Idle? && !s.agents[a].web && msg.kind == WebShareList && cs != []
    ensures Leads(Receive(s, a, msg, now), a, cs, s')
    ensures if s.agents[a].id != "" then
              && LinksOnly(s, s', a, msg)
              && (forall k :: k in s'.tables.shares <==>
                    k in s.tables.shares && !s.tables.shares[k].revoked && cs[0].now <= s.tables.shares[k].expiresAt)
              && (forall k :: k in s'.tables.shares ==> s'.tables.shares[k] == s.tables.shares[k])
            else Refused(s, s', a, msg)
  {
    if s.agents[a].id != "" {
      Hears(s, a, msg, now, ShareList);
      s' := SharesAndRests(s, a, msg, ShareList, WebShares.Purged(s.tables.shares, cs[0].now), cs);
    } else {
      Hears(s, a, msg, now, Failing(a, s.agents[a]));
      s' := Refuses(s, a, msg, cs);
    }
  }

  /** Link `k` is one of device `id` that the message names, by id or by token. */
  predicate NamesLink(s: State, id: string, msg: Envelope, k: string)
    requires msg.payload.ShareRef?
  {
    && k in s.tables.shares && s.tables.shares[k].controlledId == id
    && ((msg.payload.shareId != "" && s.tables.shares[k].id == msg.payload.shareId)
        || (msg.payload.shareToken != "" && s.tables.shares[k].token == msg.payload.shareToken))
  }

  /** A registered device revokes a link: one of its own that it has named goes, the
      one the walk over the table meets first; if it has named none there is an error
      reply. */
  lemma RevocationAlone(s: State, a: AgentId, msg: Envelope, now: int, cs: seq<Choice>) returns (s': State)
    requires a in s.agents && s.agents[a].pc.Idle? && !s.agents[a].web && msg.kind == WebShareRevoke && |cs| >= 2
    requires msg.payload.ShareRef? && (exists k :: NamesLink(s, s.agents[a].id, msg, k)) ==>
               NamesLink(s, s.agents[a].id, msg, cs[0].picked)
    ensures Leads(Receive(s, a, msg, now), a, cs, s')
    ensures if s.agents[a].id != "" && msg.payload.ShareRef? && exists k :: NamesLink(s, s.agents[a].id, msg, k)
            then LinksOnly(s, s', a, msg) && s'.tables.shares == s.tables.shares - {cs[0].picked}
            else Refused(s, s', a, msg)
  {
    var agent, p := s.agents[a], msg.payload;
    if agent.id != "" && p.ShareRef? && (p.shareId != "" || p.shareToken != "") {
      Hears(s, a, msg, now, ShareRevoke(p));
      NamedIsRevocable(s, agent.id, msg);
      s' := Revokes(s, a, msg, cs);
    } else {
      Hears(s, a, msg, now, Failing(a, agent));
      s' := Refuses(s, a, msg, cs);
    }
  }

  lemma NamedIsRevocable(s: State, id: string, msg: Envelope)
    requires msg.payload.ShareRef?
    ensures forall k :: NamesLink(s, id, msg, k) <==>
              k in s.tables.shares && WebShares.Revocable(s.tables.shares[k], id, msg.payload.shareId, msg.payload.shareToken)
    ensures WebShares.AnyRevocable(s.tables.shares, id, msg.payload.shareId, msg.payload.shareToken) <==>
            exists k :: NamesLink(s, id, msg, k)
  {
    if WebShares.AnyRevocable(s.tables.shares, id, msg.payload.shareId, msg.payload.shareToken) {
      var k :| k in s.tables.shares && WebShares.Revocable(s.tables.shares[k], id, msg.payload.shareId, msg.payload.shareToken);
      assert NamesLink(s, id, msg, k);
    }
    if k :| NamesLink(s, id, msg, k) {
      assert WebShares.Revocable(s.tables.shares[k], id, msg.payload.shareId, msg.payload.shareToken);
    }
  }

  lemma Revokes(s: State, a: AgentId, msg: Envelope, cs: seq<Choice>) returns (s': State)
    requires a in s.agents && s.agents[a].pc.Idle? && msg.payload.ShareRef? && |cs| >= 2
    requires var p := msg.payload; var found := WebShares.AnyRevocable(s.tables.shares, s.agents[a].id, p.shareId, p.shareToken);
      found ==> cs[0].picked in s.tables.shares
                && WebShares.Revocable(s.tables.shares[cs[0].picked], s.agents[a].id, p.shareId, p.shareToken)
    ensures Leads(Heard(s, a, msg, ShareRevoke(msg.payload)), a, cs, s') == true
    ensures if WebShares.AnyRevocable(s.tables.shares, s.agents[a].id, msg.payload.shareId, msg.payload.shareToken)
            then LinksOnly(s, s', a, msg) == true && s'.tables.shares == s.tables.shares - {cs[0].picked}
            else Refused(s, s', a, msg) == true
  {
    var agent, p, pc := s.agents[a], msg.payload, ShareRevoke(msg.payload);
    if WebShares.AnyRevocable(s.tables.shares, agent.id, p.shareId, p.shareToken) {
      s' := SharesAndRests(s, a, msg, pc, s.tables.shares - {cs[0].picked}, cs);
    } else {
      s' := Refuses(s, a, msg, cs[1..]);
      assert s.(tables := s.tables.(shares := s.tables.shares)) == s;
      SharesOn(s, a, msg, pc, s.tables.shares, Failing(a, agent), cs, s');
    }
  }

  // ---------------------------------------------------------------------- the rest

  /** A visitor's heartbeat is answered in kind; a device's is answered past its
      queue, which changes nothing here, unless it does not decode. */
  lemma HeartbeatAlone(s: State, a: AgentId, msg: Envelope, now: int, cs: seq<Choice>) returns (s': State)
    requires a in s.agents && s.agents[a].pc.Idle? && msg.kind == HeartbeatPing && |cs| >= 2
    ensures Leads(Receive(s, a, msg, now), a, cs, s')
    ensures msg.payload.Malformed? ==> Refused(s, s', a, msg)
    ensures !msg.payload.Malformed? && s.agents[a].web ==>
              Done(s, s', a, msg) && s'.tables == s.tables
              && OfferedOnce(s, s', a, Own(s, a, a, Envelope(HeartbeatPong, "", RELAY, s.agents[a].id, msg.payload)))
    ensures !msg.payload.Malformed? && !s.agents[a].web ==>
              Done(s, s', a, msg) && s'.tables == s.tables && s'.mail == s.mail
  {
    if msg.payload.Malformed? {
      Hears(s, a, msg, now, Failing(a, s.agents[a]));
      s' := Refuses(s, a, msg, cs);
    } else if s.agents[a].web {
      var pong := Envelope(HeartbeatPong, "", RELAY, s.agents[a].id, msg.payload);
      Hears(s, a, msg, now, Offer(a, pong, Report));
      var s1 := Heard(s, a, msg, Offer(a, pong, Report));
      s' := OffersAndReports(s1, a, a, pong, cs);
      OfferedOnceOf(s, s1, s', a, Own(s, a, a, pong), cs[0].coins);
      assert s'.agents == s.agents[a := s.agents[a].(inbox := s.agents[a].inbox + [msg])];
    } else {
      Hears(s, a, msg, now, Idle);
      s' := Heard(s, a, msg, Idle);
      LeadsNowhere(s', a, cs);
    }
  }

  /** Kinds the relay takes from a device, and those it takes from a visitor. */
  predicate IsServed(kind: Kind, web: bool) {
    if web then kind in {InputMouse, InputKeyboard, StreamControl, SessionClose, HeartbeatPing}
    else kind !in {DeviceRegistered, WebShareStatus, SessionReady, ErrorReply, Unknown}
  }

  /** Everything else is refused, but for a device's heartbeat answer, which is taken
      in silence. */
  lemma OtherAlone(s: State, a: AgentId, msg: Envelope, now: int, cs: seq<Choice>) returns (s': State)
    requires a in s.agents && s.agents[a].pc.Idle? && cs != []
    requires !IsServed(msg.kind, s.agents[a].web) || (msg.kind == HeartbeatPong && !s.agents[a].web)
    ensures Leads(Receive(s, a, msg, now), a, cs, s')
    ensures if msg.kind == HeartbeatPong && !s.agents[a].web
            then Done(s, s', a, msg) && s'.tables == s.tables && s'.mail == s.mail
            else Refused(s, s', a, msg)
  {
    if msg.kind == HeartbeatPong && !s.agents[a].web {
      Hears(s, a, msg, now, Idle);
      s' := Heard(s, a, msg, Idle);
      LeadsNowhere(s', a, cs);
    } else {
      Unserved(s, a, msg, now);
      s' := Refuses(s, a, msg, cs);
    }
  }

  lemma Unserved(s: State, a: AgentId, msg: Envelope, now: int)
    requires a in s.agents && s.agents[a].pc.Idle? && !IsServed(msg.kind, s.agents[a].web)
    ensures Receive(s, a, msg, now) == Heard(s, a, msg, Failing(a, s.agents[a]))
  {
  }

  // ---------------------------------------------------------------------- visitors

  /** The visitor's link is good at `now`: stored, not revoked, not expired, its
      device online. */
  predicate LinkGood(s: State, a: AgentId, now: int)
    requires a in s.agents
  {
    var token := s.agents[a].shareToken;
    && token != "" && token in s.tables.shares
    && !s.tables.shares[token].revoked && now <= s.tables.shares[token].expiresAt
    && s.tables.shares[token].controlledId in s.tables.clients
  }

  /** The links after a look-up: one found revoked or expired is gone. */
  predicate LinkLooked(s: State, s': State, a: AgentId, now: int)
    requires a in s.agents
  {
    var token := s.agents[a].shareToken;
    s'.tables.shares ==
      if token != "" && token in s.tables.shares
         && (s.tables.shares[token].revoked || now > s.tables.shares[token].expiresAt)
      then s.tables.shares - {token} else s.tables.shares
  }

  /** What the device is asked on behalf of a visitor. */
  function VisitorAsks(agent: Agent): Envelope {
    Envelope(SessionRequest, "", agent.id, agent.controlled,
             Request(agent.controlled, agent.shareMode, "", "Web visitor", ROLE_CONTROLLER,
                     agent.shareMode == MODE_VIEW_CONTROL))
  }

  /** The visitor is listed, its request is on record, and the device has been asked;
      then the visitor is told to wait, or that it failed. */
  ghost predicate Visiting(s: State, s': State, a: AgentId, x: AgentId)
    requires a in s.agents
  {
    var agent := s.agents[a];
    && s'.agents == s.agents[a := agent.(pc := Idle)]
    && (exists now :: s'.tables == s.tables.(
          webPeers := s.tables.webPeers[agent.id := a],
          pending := s.tables.pending[PendingMap.Key(agent.id, agent.controlled) :=
                                        PendingMap.PendingRequest(agent.id, agent.controlled, NormalizeMode(agent.shareMode), now)]))
    && (|| s'.mail.log == s.mail.log + [Aside(s, a, x, VisitorAsks(agent))]
                            + [Aside(s, a, a, Envelope(WebShareStatus, "", RELAY, agent.id, Note("waiting")))]
        || s'.mail.log == s.mail.log + [Aside(s, a, x, VisitorAsks(agent))] + [Aside(s, a, a, ErrorFor(agent))])
    && (HasPlace(s, x) ==>
          s'.mail.log == s.mail.log + [Aside(s, a, x, VisitorAsks(agent))]
                           + [Aside(s, a, a, Envelope(WebShareStatus, "", RELAY, agent.id, Note("waiting")))])
  }

  lemma VisitorLooks(s: State, a: AgentId, onward: Pc, cs: seq<Choice>, s': State)
    requires a in s.agents && cs != [] && s.agents[a].pc.WebTarget? && Looked(s.tables, a, s.agents[a]) == onward
    requires Leads(Goto(s, a, onward), a, cs[1..], s') == true
    ensures Leads(s, a, cs, s') == true
  {
    RunsLookup(s, a, cs[0]);
    LeadsOn(s, a, cs, Goto(s, a, onward), s');
  }

  lemma VisitorChecks(s: State, a: AgentId, cs: seq<Choice>, s': State)
    requires a in s.agents && cs != [] && s.agents[a].pc.WebCheck?
    requires Leads(Sharing(s, a, cs[0]), a, cs[1..], s') == true
    ensures Leads(s, a, cs, s') == true
  {
    RunsShare(s, a, cs[0]);
    LeadsOn(s, a, cs, Sharing(s, a, cs[0]), s');
  }

  /** After the request has been offered. */
  lemma TellsVisitor(s: State, a: AgentId, x: AgentId, e: Envelope, status: Envelope, cs: seq<Choice>) returns (s': State)
    requires a in s.agents && |cs| >= 2 && s.agents[a].pc == Offer(x, e, ThenOwnIfSent(status))
    ensures Leads(s, a, cs, s') == true
    ensures s' == s.(agents := s.agents[a := s.agents[a].(pc := Idle)], mail := s'.mail)
    ensures s'.mail.log == s.mail.log + [Sent(x, e, a, |s.agents[a].inbox|)]
              + [Sent(a, if Accepts(s.agents, s.mail, x, cs[0].coins) then status else ErrorEnvelope(s.agents[a].id),
                      a, |s.agents[a].inbox|)]
  {
    var s1 := Offered(s, a, x, e, ThenOwnIfSent(status), cs[0].coins);
    if Accepts(s.agents, s.mail, x, cs[0].coins) {
      s' := OffersLast(s1, a, status, cs[1..]);
    } else {
      s' := RefusesAfter(s1, a, cs[1..]);
    }
    assert s1.agents[a := s1.agents[a].(pc := Idle)] == s.agents[a := s.agents[a].(pc := Idle)];
    Offers(s, a, cs, s');
  }

  /** An envelope for `a` itself, whatever its queue says. */
  lemma OffersLast(s: State, a: AgentId, e: Envelope, cs: seq<Choice>) returns (s': State)
    requires a in s.agents && cs != [] && s.agents[a].pc == Offer(a, e, Finish)
    ensures Leads(s, a, cs, s') == true
    ensures s' == s.(agents := s.agents[a := s.agents[a].(pc := Idle)], mail := s'.mail)
    ensures s'.mail.log == s.mail.log + [Sent(a, e, a, |s.agents[a].inbox|)]
  {
    s' := Offered(s, a, a, e, Finish, cs[0].coins);
    LeadsNowhere(s', a, cs[1..]);
    Offers(s, a, cs, s');
  }

  lemma JoinsOn(s: State, a: AgentId, x: AgentId, cs: seq<Choice>, s1: State, s2: State, s': State)
    requires a in s.agents && |cs| >= 2 && s.agents[a].pc == WebJoin(x)
    requires s1 == Joining(s, a, x) && s2 == StoringVisit(s1, a, x, cs[1].now)
    requires Leads(s2, a, cs[1..][1..], s') == true
    ensures Leads(s, a, cs, s') == true
  {
    RunsJoin(s, a, cs[0]);
    RunsJoin(s1, a, cs[1]);
    LeadsOn(s1, a, cs[1..], s2, s');
    LeadsOn(s, a, cs, s1, s');
  }

  /** `s` with the visitor listed and its request on record. */
  lemma JoinedShape(s: State, a: AgentId, x: AgentId, now: int)
    requires a in s.agents
    ensures var s2 := StoringVisit(Joining(s, a, x), a, x, now); var agent := s.agents[a];
      && s2.tables == s.tables.(
           webPeers := s.tables.webPeers[agent.id := a],
           pending := s.tables.pending[PendingMap.Key(agent.id, agent.controlled) :=
                                         PendingMap.PendingRequest(agent.id, agent.controlled, NormalizeMode(agent.shareMode), now)])
      && s2.mail == s.mail
      && s2.agents == s.agents[a := agent.(pc := Offer(x, VisitorAsks(agent),
                                             ThenOwnIfSent(Envelope(WebShareStatus, "", RELAY, agent.id, Note("waiting")))))]
  {
    var s1 := Joining(s, a, x);
    var s2 := StoringVisit(s1, a, x, now);
    assert s2.agents[a].pc == Offer(x, VisitorAsks(s.agents[a]),
                                    ThenOwnIfSent(Envelope(WebShareStatus, "", RELAY, s.agents[a].id, Note("waiting"))));
    assert s2.agents == s.agents[a := s2.agents[a]];
  }

  lemma Joins(s: State, a: AgentId, x: AgentId, cs: seq<Choice>) returns (s': State)
    requires a in s.agents && |cs| >= 4 && s.agents[a].pc == WebJoin(x)
    ensures Leads(s, a, cs, s') == true && Visiting(s, s', a, x) == true && s'.tables.shares == s.tables.shares
  {
    var s1 := Joining(s, a, x);
    var s2 := StoringVisit(s1, a, x, cs[1].now);
    var status := Envelope(WebShareStatus, "", RELAY, s.agents[a].id, Note("waiting"));
    JoinedShape(s, a, x, cs[1].now);
    s' := TellsVisitor(s2, a, x, VisitorAsks(s.agents[a]), status, cs[1..][1..]);
    JoinsOn(s, a, x, cs, s1, s2, s');
    VisitingBy(s, s2, s', a, x, cs[1].now, cs[1..][1..][0].coins);
  }

  lemma VisitingBy(s: State, s2: State, s': State, a: AgentId, x: AgentId, now: int, coins: set<nat>)
    requires a in s.agents
    requires var agent := s.agents[a];
      && s2.tables == s.tables.(
           webPeers := s.tables.webPeers[agent.id := a],
           pending := s.tables.pending[PendingMap.Key(agent.id, agent.controlled) :=
                                         PendingMap.PendingRequest(agent.id, agent.controlled, NormalizeMode(agent.shareMode), now)])
      && s2.mail == s.mail && a in s2.agents && s2.agents == s.agents[a := agent.(pc := s2.agents[a].pc)]
      && s' == s2.(agents := s2.agents[a := s2.agents[a].(pc := Idle)], mail := s'.mail)
      && s'.mail.log == s2.mail.log + [Sent(x, VisitorAsks(agent), a, |s2.agents[a].inbox|)]
           + [Sent(a, if Accepts(s2.agents, s2.mail, x, coins) then Envelope(WebShareStatus, "", RELAY, agent.id, Note("waiting"))
                      else ErrorEnvelope(s2.agents[a].id), a, |s2.agents[a].inbox|)]
    ensures Visiting(s, s', a, x) == true
  {
    assert s'.agents == s.agents[a := s.agents[a].(pc := Idle)];
  }

  /** The visitor gets an error reply. */
  predicate TurnedAway(s: State, s': State, a: AgentId)
    requires a in s.agents
  {
    && s'.agents == s.agents[a := s.agents[a].(pc := Idle)]
    && s'.tables == s.tables.(shares := s'.tables.shares)
    && s'.mail.log == s.mail.log + [Aside(s, a, a, ErrorFor(s.agents[a]))]
  }

  /** What comes of a visitor once it has got hold of a link, from any state: if the
      link is still good and the device it was made for online, the visitor is listed,
      its request put on record and the device asked, in the mode of the link;
      otherwise the visitor gets an error reply. */
  lemma VisitAlone(s: State, a: AgentId, cs: seq<Choice>) returns (s': State)
    requires a in s.agents && s.agents[a].pc.WebCheck? && |cs| >= 6
    ensures Leads(s, a, cs, s')
    ensures LinkLooked(s, s', a, cs[0].now)
    ensures if LinkGood(s, a, cs[0].now) && s.agents[a].controlled in s.tables.clients
            then Visiting(s, s', a, s.tables.clients[s.agents[a].controlled])
            else TurnedAway(s, s', a)
  {
    var s1 := Sharing(s, a, cs[0]);
    CheckedShape(s, a, cs[0]);
    if LinkGood(s, a, cs[0].now) && s.agents[a].controlled in s.tables.clients {
      s' := VisitsOn(s, s1, a, s.tables.clients[s.agents[a].controlled], cs[1..]);
    } else {
      s' := VisitFails(s, s1, a, if LinkGood(s, a, cs[0].now) then WebTarget else Failing(a, s.agents[a]), cs[1..]);
    }
    VisitorChecks(s, a, cs, s');
  }

  lemma TurnsAway(s: State, s1: State, a: AgentId, cs: seq<Choice>) returns (s': State)
    requires a in s.agents && cs != []
    requires s1 == Goto(s.(tables := s.tables.(shares := s1.tables.shares)), a, Failing(a, s.agents[a]))
    ensures Leads(s1, a, cs, s') == true && TurnedAway(s, s', a) == true && s'.tables.shares == s1.tables.shares
  {
    s' := RefusesAfter(s1, a, cs);
    assert s'.agents == s.agents[a := s.agents[a].(pc := Idle)];
  }

  lemma VisitFails(s: State, s1: State, a: AgentId, pc: Pc, cs: seq<Choice>) returns (s': State)
    requires a in s.agents && |cs| >= 2
    requires s1 == Goto(s.(tables := s.tables.(shares := s1.tables.shares)), a, pc)
    requires pc == Failing(a, s.agents[a]) || (pc == WebTarget && s.agents[a].controlled !in s.tables.clients)
    ensures Leads(s1, a, cs, s') == true && TurnedAway(s, s', a) == true && s'.tables.shares == s1.tables.shares
  {
    if pc == WebTarget {
      var s2 := Goto(s1, a, Failing(a, s.agents[a]));
      assert s2 == Goto(s.(tables := s1.tables), a, Failing(a, s.agents[a]));
      s' := TurnsAway(s, s2, a, cs[1..]);
      VisitorLooks(s1, a, Failing(a, s.agents[a]), cs, s');
    } else {
      s' := TurnsAway(s, s1, a, cs);
    }
  }

  lemma CheckedShape(s: State, a: AgentId, c: Choice)
    requires a in s.agents && s.agents[a].pc.WebCheck?
    ensures var s1 := Sharing(s, a, c);
      && LinkLooked(s, s1, a, c.now) && (LinkGood(s, a, c.now) ==> s1.tables == s.tables)
      && s1 == Goto(s.(tables := s.tables.(shares := s1.tables.shares)), a,
                    if LinkGood(s, a, c.now) then WebTarget else Failing(a, s.agents[a]))
  {
  }

  lemma VisitsOn(s: State, s1: State, a: AgentId, x: AgentId, cs: seq<Choice>) returns (s': State)
    requires a in s.agents && |cs| >= 5 && s1 == Goto(s, a, WebTarget)
    requires s.agents[a].controlled in s.tables.clients && s.tables.clients[s.agents[a].controlled] == x
    ensures Leads(s1, a, cs, s') == true && Visiting(s, s', a, x) == true && s'.tables.shares == s.tables.shares
  {
    var s2 := Goto(s, a, WebJoin(x));
    GotoTwice(s, a, WebTarget, WebJoin(x));
    s' := Joins(s2, a, x, cs[1..]);
    VisitorLooks(s1, a, WebJoin(x), cs, s');
    SameVisit(s, s2, s', a, x);
  }

  lemma GotoTwice(s: State, a: AgentId, first: Pc, pc: Pc)
    requires a in s.agents
    ensures Goto(Goto(s, a, first), a, pc) == Goto(s, a, pc)
  {
  }

  lemma SameVisit(s: State, s2: State, s': State, a: AgentId, x: AgentId)
    requires a in s.agents && s2 == s.(agents := s.agents[a := s.agents[a].(pc := WebJoin(x))]) && Visiting(s2, s', a, x) == true
    ensures Visiting(s, s', a, x) == true
  {
    assert s2.agents[a := s2.agents[a].(pc := Idle)] == s.agents[a := s.agents[a].(pc := Idle)];
    assert VisitorAsks(s2.agents[a]) == VisitorAsks(s.agents[a]);
  }
}
