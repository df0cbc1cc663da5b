/** Requests, confirms and closes whose handlers run without interruption. */
module RelayAloneSessions {
  import opened Protocol
  import opened Registry
  import opened RelaySystem
  import opened RelayInvariants
  import opened RelaySteps
  import opened RelayRuns
  import opened RelayAlone
  import AuthCode
  import PendingMap

  // ---------------------------------------------------------------------- requests

  /** A device that has registered asks for a device that is listed, as `x`. */
  predicate AsksListed(s: State, a: AgentId, msg: Envelope, x: AgentId) {
    && a in s.agents && s.agents[a].id != "" && msg.payload.Request? && msg.payload.target != ""
    && msg.payload.target in s.tables.clients && s.tables.clients[msg.payload.target] == x
  }

  /** No code is stored for `x`, or `code` is the one, and in time. */
  predicate GivesCode(s: State, x: AgentId, code: string, now: int) {
    x in s.codes && s.codes[x].code != "" ==> code == s.codes[x].code && now <= s.codes[x].expiry
  }

  /** The code stored for `x` is gone if it was given or has expired; the others stay. */
  ghost predicate CodeSpent(s: State, s': State, x: AgentId, code: string, now: int) {
    && CodeOf(s', x).code == (if CodeOf(s, x).code == code || now > CodeOf(s, x).expiry then "" else CodeOf(s, x).code)
    && forall y :: y != x ==> CodeOf(s', y) == CodeOf(s, y)
  }

  /** The request of `a` is on record for the pair and has been offered to the target
      without its code; nothing else in the tables has changed. */
  ghost predicate RequestedOf(s: State, s': State, a: AgentId, msg: Envelope, x: AgentId)
    requires a in s.agents && msg.payload.Request?
  {
    var agent, p := s.agents[a], msg.payload;
    && Done(s, s', a, msg)
    && (exists now :: s'.tables == s.tables.(
          pending := s.tables.pending[PendingMap.Key(agent.id, p.target) :=
                                        PendingMap.PendingRequest(agent.id, p.target, NormalizeMode(p.mode), now)]))
    && OfferedOnce(s, s', a,
                   Own(s, a, x, msg.(from := agent.id, to := p.target,
                                     payload := Request(p.target, NormalizeMode(p.mode), "", agent.name, agent.role,
                                                        p.mode == MODE_VIEW_CONTROL))))
  }

  /** Nothing but an error reply, and perhaps a code that is gone. */
  predicate RefusedAtGate(s: State, s': State, a: AgentId, msg: Envelope) {
    && Done(s, s', a, msg)
    && s' == s.(agents := s'.agents, mail := s'.mail, codes := s'.codes)
    && s'.mail.log == s.mail.log + [Refusal(s, a)]
  }

  /** `s` once the code of `x` has been checked. */
  function Checked(s: State, x: AgentId, code: string, now: int): State {
    s.(codes := s.codes[x := AuthCode.AfterJudge(CodeOf(s, x), code, now)])
  }

  lemma CheckedSpent(s: State, x: AgentId, code: string, now: int)
    requires GivesCode(s, x, code, now) <==> AuthCode.Judge(CodeOf(s, x), code, now).Passes()
    ensures GivesCode(s, x, code, now) ==> CodeOf(Checked(s, x, code, now), x).code == ""
    ensures CodeOf(s, x).code != "" ==> CodeSpent(s, Checked(s, x, code, now), x, code, now)
    ensures CodeOf(s, x).code == "" ==> CodeOf(Checked(s, x, code, now), x) == CodeOf(s, x)
    ensures forall y :: y != x ==> CodeOf(Checked(s, x, code, now), y) == CodeOf(s, y)
  {
  }

  lemma GivesIff(s: State, x: AgentId, code: string, now: int)
    ensures GivesCode(s, x, code, now) <==> AuthCode.Judge(CodeOf(s, x), code, now).Passes()
  {
    AuthCode.PassesIff(CodeOf(s, x), code, now);
  }

  lemma ChecksOn(s: State, a: AgentId, msg: Envelope, x: AgentId, cs: seq<Choice>, s': State)
    requires a in s.agents && cs != [] && msg.payload.Request?
    requires var p, now := msg.payload, cs[0].now;
      var pc := if GivesCode(s, x, p.authCode, now) then ReqStore(x, p) else Failing(a, s.agents[a]);
      Leads(Heard(Checked(s, x, p.authCode, now), a, msg, pc), a, cs[1..], s') == true
    ensures Leads(Heard(s, a, msg, ReqCheck(x, msg.payload)), a, cs, s') == true
  {
    var p, now := msg.payload, cs[0].now;
    var s1 := Heard(s, a, msg, ReqCheck(x, p));
    GivesIff(s, x, p.authCode, now);
    RunsRequest(s1, a, cs[0]);
    var pc := if GivesCode(s, x, p.authCode, now) then ReqStore(x, p) else Failing(a, s.agents[a]);
    assert Checking(s1, a, x, p, now) == Heard(Checked(s, x, p.authCode, now), a, msg, pc);
    LeadsOn(s1, a, cs, Heard(Checked(s, x, p.authCode, now), a, msg, pc), s');
  }

  /** `s` once a request of `a` for the pair has been stored. */
  function Recorded(s: State, a: AgentId, controlled: string, mode: string, now: int): State
    requires a in s.agents
  {
    var key := PendingMap.Key(s.agents[a].id, controlled);
    var request := PendingMap.PendingRequest(s.agents[a].id, controlled, NormalizeMode(mode), now);
    s.(tables := s.tables.(pending := s.tables.pending[key := request]),
       requests := s.requests + [Stored(a, |s.agents[a].inbox| + 1, request)],
       live := s.live[key := |s.requests|])
  }

  /** What the target of a request is shown. */
  function ShownRequest(agent: Agent, msg: Envelope): Envelope
    requires msg.payload.Request?
  {
    var p := msg.payload;
    msg.(from := agent.id, to := p.target,
         payload := Request(p.target, NormalizeMode(p.mode), "", agent.name, agent.role, p.mode == MODE_VIEW_CONTROL))
  }

  lemma StoresOn(s: State, a: AgentId, msg: Envelope, x: AgentId, cs: seq<Choice>, s': State)
    requires a in s.agents && cs != [] && msg.payload.Request?
    requires var p := msg.payload;
      Leads(Heard(Recorded(s, a, p.target, p.mode, cs[0].now), a, msg, Offer(x, ShownRequest(s.agents[a], msg), Report)),
            a, cs[1..], s') == true
    ensures Leads(Heard(s, a, msg, ReqStore(x, msg.payload)), a, cs, s') == true
  {
    var p := msg.payload;
    var s1 := Heard(s, a, msg, ReqStore(x, p));
    RunsRequest(s1, a, cs[0]);
    var s2 := Heard(Recorded(s, a, p.target, p.mode, cs[0].now), a, msg, Offer(x, ShownRequest(s.agents[a], msg), Report));
    assert StoringRequest(s1, a, x, p, cs[0].now) == s2;
    LeadsOn(s1, a, cs, s2, s');
  }

  /** Stored, then offered: the end of a request that passed. */
  lemma StoredAndOffered(s: State, s2: State, s': State, a: AgentId, msg: Envelope, x: AgentId, now: int, coins: set<nat>)
    requires a in s.agents && s.agents[a].pc.Idle? && msg.payload.Request? && s2.agents == s.agents && s2.mail == s.mail
    requires s2.cfg == s.cfg && s2.tables == s.tables
    requires var p, e := msg.payload, ShownRequest(s.agents[a], msg);
      var s1 := Heard(Recorded(s2, a, p.target, p.mode, now), a, msg, Offer(x, e, Report));
      && s' == s1.(agents := s1.agents[a := s1.agents[a].(pc := Idle)], mail := s'.mail)
      && var m := Sent(x, e, a, |s1.agents[a].inbox|);
      if Accepts(s1.agents, s1.mail, x, coins) then s'.mail == Post(s1.agents, s1.mail, m, coins)
      else s'.mail.log == s1.mail.log + [m] + [Sent(a, ErrorEnvelope(s1.agents[a].id), a, |s1.agents[a].inbox|)]
    ensures RequestedOf(s, s', a, msg, x) == true
  {
    var p, e := msg.payload, ShownRequest(s.agents[a], msg);
    var s1 := Heard(Recorded(s2, a, p.target, p.mode, now), a, msg, Offer(x, e, Report));
    OfferedOnceOf(s, s1, s', a, Own(s, a, x, e), coins);
    assert s'.agents == s.agents[a := s.agents[a].(inbox := s.agents[a].inbox + [msg])];
  }

  lemma StoresAndOffers(s: State, s2: State, a: AgentId, msg: Envelope, x: AgentId, cs: seq<Choice>) returns (s': State)
    requires a in s.agents && s.agents[a].pc.Idle? && msg.payload.Request? && |cs| >= 3
    requires s2 == s.(codes := s2.codes)
    ensures Leads(Heard(s2, a, msg, ReqStore(x, msg.payload)), a, cs, s') == true
    ensures RequestedOf(s, s', a, msg, x) == true && s'.codes == s2.codes
  {
    var p := msg.payload;
    var s1 := Heard(Recorded(s2, a, p.target, p.mode, cs[0].now), a, msg, Offer(x, ShownRequest(s.agents[a], msg), Report));
    s' := OffersAndReports(s1, a, x, ShownRequest(s.agents[a], msg), cs[1..]);
    StoresOn(s2, a, msg, x, cs, s');
    StoredAndOffered(s, s2, s', a, msg, x, cs[0].now, cs[1..][0].coins);
  }

  lemma GateRefuses(s: State, s2: State, a: AgentId, msg: Envelope, cs: seq<Choice>) returns (s': State)
    requires a in s.agents && s.agents[a].pc.Idle? && cs != [] && s2 == s.(codes := s2.codes)
    ensures Leads(Heard(s2, a, msg, Failing(a, s.agents[a])), a, cs, s') == true
    ensures RefusedAtGate(s, s', a, msg) == true && s'.codes == s2.codes
  {
    s' := Refuses(s2, a, msg, cs);
  }

  lemma ChecksRequest(s: State, a: AgentId, msg: Envelope, x: AgentId, cs: seq<Choice>) returns (s': State)
    requires a in s.agents && s.agents[a].pc.Idle? && msg.payload.Request? && |cs| >= 4
    ensures Leads(Heard(s, a, msg, ReqCheck(x, msg.payload)), a, cs, s') == true
    ensures if GivesCode(s, x, msg.payload.authCode, cs[0].now) then RequestedOf(s, s', a, msg, x) == true
            else RefusedAtGate(s, s', a, msg) == true
    ensures s'.codes == Checked(s, x, msg.payload.authCode, cs[0].now).codes
  {
    var s2 := Checked(s, x, msg.payload.authCode, cs[0].now);
    if GivesCode(s, x, msg.payload.authCode, cs[0].now) {
      s' := StoresAndOffers(s, s2, a, msg, x, cs[1..]);
    } else {
      s' := GateRefuses(s, s2, a, msg, cs[1..]);
    }
    ChecksOn(s, a, msg, x, cs, s');
  }

  lemma TargetFound(s: State, a: AgentId, msg: Envelope, x: AgentId, cs: seq<Choice>, s': State)
    requires AsksListed(s, a, msg, x) && cs != []
    requires Leads(Heard(s, a, msg, ReqCheck(x, msg.payload)), a, cs[1..], s') == true
    ensures Leads(Heard(s, a, msg, ReqLookup(msg.payload)), a, cs, s') == true
  {
    Looks(s, a, msg, ReqLookup(msg.payload), ReqCheck(x, msg.payload), cs, s');
  }

  lemma TargetMissing(s: State, a: AgentId, msg: Envelope, cs: seq<Choice>) returns (s': State)
    requires a in s.agents && s.agents[a].pc.Idle? && |cs| >= 2 && msg.payload.Request?
    requires msg.payload.target !in s.tables.clients
    ensures Leads(Heard(s, a, msg, ReqLookup(msg.payload)), a, cs, s') == true && Refused(s, s', a, msg) == true
  {
    s' := Refuses(s, a, msg, cs[1..]);
    Looks(s, a, msg, ReqLookup(msg.payload), Failing(a, s.agents[a]), cs, s');
  }

  lemma AsksTarget(s: State, a: AgentId, msg: Envelope, x: AgentId, cs: seq<Choice>) returns (s': State)
    requires AsksListed(s, a, msg, x) && s.agents[a].pc.Idle? && |cs| >= 5
    ensures Leads(Heard(s, a, msg, ReqLookup(msg.payload)), a, cs, s') == true
    ensures if GivesCode(s, x, msg.payload.authCode, cs[1].now) then RequestedOf(s, s', a, msg, x) == true
            else RefusedAtGate(s, s', a, msg) == true
    ensures CodeOf(s, x).code != "" ==> CodeSpent(s, s', x, msg.payload.authCode, cs[1].now) == true
  {
    var p := msg.payload;
    s' := ChecksRequest(s, a, msg, x, cs[1..]);
    TargetFound(s, a, msg, x, cs, s');
    GivesIff(s, x, p.authCode, cs[1].now);
    CheckedSpent(s, x, p.authCode, cs[1].now);
  }

  /** What a session request of a device comes to, from any state: if it has
      registered, the target is listed, and either no code is stored for the target
      or the request gives the stored one in time, then the request is on record for
      the pair and offered to the target; in every other case there is an error
      reply and no request.  A code that was given, or has expired, is gone. */
  lemma RequestAlone(s: State, a: AgentId, msg: Envelope, now: int, cs: seq<Choice>) returns (s': State)
    requires a in s.agents && s.agents[a].pc.Idle? && !s.agents[a].web && msg.kind == SessionRequest && |cs| >= 5
    ensures Leads(Receive(s, a, msg, now), a, cs, s')
    ensures forall x :: AsksListed(s, a, msg, x) ==>
              && (if GivesCode(s, x, msg.payload.authCode, cs[1].now) then RequestedOf(s, s', a, msg, x)
                  else RefusedAtGate(s, s', a, msg))
              && (CodeOf(s, x).code != "" ==> CodeSpent(s, s', x, msg.payload.authCode, cs[1].now))
    ensures (forall x :: !AsksListed(s, a, msg, x)) ==> Refused(s, s', a, msg)
  {
    var p := msg.payload;
    if s.agents[a].id == "" || !p.Request? || p.target == "" {
      Hears(s, a, msg, now, Failing(a, s.agents[a]));
      s' := Refuses(s, a, msg, cs);
    } else if p.target !in s.tables.clients {
      Hears(s, a, msg, now, ReqLookup(p));
      s' := TargetMissing(s, a, msg, cs);
    } else {
      Hears(s, a, msg, now, ReqLookup(p));
      s' := AsksTarget(s, a, msg, s.tables.clients[p.target], cs);
      assert AsksListed(s, a, msg, s.tables.clients[p.target]);
    }
  }

  // ---------------------------------------------------------------------- confirms

  /** What the laws below ask of a state holds in every state of every run. */
  lemma ReachedIsLawful(cfg: Config, states: seq<State>, events: seq<Event>, n: nat)
    requires IsRun(cfg, states, events) && n < |states|
    ensures ListedOk(states[n]) && RequestsOk(states[n]) && BoxesOk(states[n].mail)
  {
    RunsKeepInvariant(cfg, states, events, n);
  }

  /** A registered device answers `peer`, who is listed as `x`. */
  predicate AnswersListed(s: State, a: AgentId, msg: Envelope, peer: string, x: AgentId) {
    && a in s.agents && s.agents[a].id != "" && msg.payload.Confirm?
    && peer == (if msg.to == "" then msg.from else msg.to)
    && (peer in s.tables.clients || peer in s.tables.webPeers) && x == ListedAs(s.tables, peer)
  }

  /** The request of the pair, if any, is gone, and nothing else in the tables is
      different. */
  predicate RequestGone(s: State, s': State, peer: string, id: string) {
    s'.tables == s.tables.(pending := s.tables.pending - {PendingMap.Key(peer, id)})
  }

  /** The answer declines: it has been passed on to the one it answers. */
  predicate Declined(s: State, s': State, a: AgentId, msg: Envelope, peer: string, x: AgentId)
    requires a in s.agents
  {
    && Done(s, s', a, msg) && RequestGone(s, s', peer, s.agents[a].id)
    && OfferedOnce(s, s', a, Own(s, a, x, msg.(from := s.agents[a].id, to := peer)))
  }

  /** The session that an accepting answer makes: in the mode of the pair's request if
      one is on record, else in the mode accepted, with input exactly if that mode has
      it and the answer grants it. */
  function SessionMade(t: RelayTables, peer: string, id: string, confirm: Payload, sid: string, now: int): Session
    requires confirm.Confirm?
  {
    var key := PendingMap.Key(peer, id);
    var mode := if key in t.pending then t.pending[key].mode else NormalizeMode(confirm.acceptedMode);
    Session(sid, peer, id, mode, confirm.confirmInput && mode == MODE_VIEW_CONTROL, now, now)
  }

  /** What the two ends of a new session are told; the controlled one is to send its
      view. */
  function ToController(session: Session, name: string): Envelope {
    Envelope(SessionReady, session.id, RELAY, session.controllerId,
             Ready(session.id, session.controlledId, name, session.mode, session.inputAllowed, ROLE_CONTROLLER, false))
  }

  function ToControlled(session: Session, peer: string, name: string): Envelope {
    Envelope(SessionReady, session.id, RELAY, session.controlledId,
             Ready(session.id, peer, name, session.mode, session.inputAllowed, ROLE_CONTROLLED, true))
  }

  /** `first` and then `second` were offered, and an error reply followed if the second
      was not taken; who has place gets its envelope. */
  predicate OfferedTwice(s: State, s': State, a: AgentId, first: Sent, second: Sent)
    requires a in s.agents
  {
    && (|| s'.mail.log == s.mail.log + [first, second]
        || s'.mail.log == s.mail.log + [first, second, Refusal(s, a)])
    && (first.to != second.to ==>
          && (HasPlace(s, first.to) ==> BoxOf(s'.mail, first.to).picked == BoxOf(s.mail, first.to).picked + [|s.mail.log|])
          && (HasPlace(s, second.to) ==>
                && s'.mail.log == s.mail.log + [first, second]
                && BoxOf(s'.mail, second.to).picked == BoxOf(s.mail, second.to).picked + [|s.mail.log| + 1]))
  }

  /** The answer accepts: the session is stored and both ends are told. */
  ghost predicate SessionStarted(s: State, s': State, a: AgentId, msg: Envelope, peer: string, x: AgentId, sid: string)
    requires a in s.agents && x in s.agents && msg.payload.Confirm?
  {
    && Done(s, s', a, msg)
    && exists now :: var session := SessionMade(s.tables, peer, s.agents[a].id, msg.payload, sid, now);
         && s'.tables == s.tables.(pending := s.tables.pending - {PendingMap.Key(peer, s.agents[a].id)},
                                   sessions := s.tables.sessions[sid := session])
         && OfferedTwice(s, s', a, Own(s, a, x, ToController(session, s.agents[a].name)),
                         Own(s, a, a, ToControlled(session, s.agents[x].id, s.agents[x].name)))
  }

  /** The caller is not listed itself: the request is gone, and an error reply sent. */
  predicate RequestLost(s: State, s': State, a: AgentId, msg: Envelope, peer: string)
    requires a in s.agents
  {
    Done(s, s', a, msg) && RequestGone(s, s', peer, s.agents[a].id) && s'.mail.log == s.mail.log + [Refusal(s, a)]
  }

  // The way of a confirm, section by section.

  lemma PeerLooked(s: State, a: AgentId, msg: Envelope, peer: string, x: AgentId, cs: seq<Choice>, s': State)
    requires AnswersListed(s, a, msg, peer, x) && |cs| >= 2
    requires var pc := if msg.payload.accepted then CnfConsume(peer, msg.payload, x) else CnfDecline(peer, msg.payload);
      Leads(Heard(s, a, msg, pc), a, cs[1..][1..], s') == true
    ensures Leads(Heard(s, a, msg, CnfClient(peer, msg.payload)), a, cs, s') == true
  {
    SecondLook(s, a, msg, peer, x, cs[1..], s');
    var client := if peer in s.tables.clients then Some(s.tables.clients[peer]) else None;
    Looks(s, a, msg, CnfClient(peer, msg.payload), CnfWeb(peer, msg.payload, client), cs, s');
  }

  lemma SecondLook(s: State, a: AgentId, msg: Envelope, peer: string, x: AgentId, cs: seq<Choice>, s': State)
    requires AnswersListed(s, a, msg, peer, x) && cs != []
    requires var pc := if msg.payload.accepted then CnfConsume(peer, msg.payload, x) else CnfDecline(peer, msg.payload);
      Leads(Heard(s, a, msg, pc), a, cs[1..], s') == true
    ensures var client := if peer in s.tables.clients then Some(s.tables.clients[peer]) else None;
      Leads(Heard(s, a, msg, CnfWeb(peer, msg.payload, client)), a, cs, s') == true
  {
    var client := if peer in s.tables.clients then Some(s.tables.clients[peer]) else None;
    var pc := if msg.payload.accepted then CnfConsume(peer, msg.payload, x) else CnfDecline(peer, msg.payload);
    Looks(s, a, msg, CnfWeb(peer, msg.payload, client), pc, cs, s');
  }

  lemma PeerMissing(s: State, a: AgentId, msg: Envelope, peer: string, cs: seq<Choice>) returns (s': State)
    requires a in s.agents && s.agents[a].pc.Idle? && |cs| >= 3 && msg.payload.Confirm?
    requires peer !in s.tables.clients && peer !in s.tables.webPeers
    ensures Leads(Heard(s, a, msg, CnfClient(peer, msg.payload)), a, cs, s') == true && Refused(s, s', a, msg) == true
  {
    s' := Refuses(s, a, msg, cs[1..][1..]);
    Looks(s, a, msg, CnfWeb(peer, msg.payload, None), Failing(a, s.agents[a]), cs[1..], s');
    Looks(s, a, msg, CnfClient(peer, msg.payload), CnfWeb(peer, msg.payload, None), cs, s');
  }

  /** The choices left once an envelope to `to` has found its way. */
  function AfterRoute(t: RelayTables, to: string, cs: seq<Choice>): seq<Choice>
    requires |cs| >= 2
  {
    if to in t.clients then cs[1..] else cs[1..][1..]
  }

  lemma RoutesOn(s: State, a: AgentId, msg: Envelope, e: Envelope, next: Next, cs: seq<Choice>, s': State)
    requires a in s.agents && |cs| >= 2 && (e.to in s.tables.clients || e.to in s.tables.webPeers)
    requires Leads(Heard(s, a, msg, Offer(ListedAs(s.tables, e.to), e, next)), a, AfterRoute(s.tables, e.to, cs), s') == true
    ensures Leads(Heard(s, a, msg, Route(e, next)), a, cs, s') == true
  {
    if e.to in s.tables.clients {
      Looks(s, a, msg, Route(e, next), Offer(s.tables.clients[e.to], e, next), cs, s');
    } else {
      Looks(s, a, msg, RouteWeb(e, next), Offer(s.tables.webPeers[e.to], e, next), cs[1..], s');
      Looks(s, a, msg, Route(e, next), RouteWeb(e, next), cs, s');
    }
  }

  lemma DeclinesOn(s: State, a: AgentId, msg: Envelope, peer: string, cs: seq<Choice>, s': State)
    requires a in s.agents && cs != [] && msg.payload.Confirm?
    requires Leads(Heard(Consuming(s, peer, s.agents[a].id), a, msg, Route(msg.(from := s.agents[a].id, to := peer), Report)),
                   a, cs[1..], s') == true
    ensures Leads(Heard(s, a, msg, CnfDecline(peer, msg.payload)), a, cs, s') == true
  {
    var s1 := Heard(s, a, msg, CnfDecline(peer, msg.payload));
    var s2 := Heard(Consuming(s, peer, s.agents[a].id), a, msg, Route(msg.(from := s.agents[a].id, to := peer), Report));
    RunsConfirm(s1, a, cs[0]);
    assert Declining(s1, a, peer) == s2;
    LeadsOn(s1, a, cs, s2, s');
  }

  lemma DeclinedBy(s: State, s': State, a: AgentId, msg: Envelope, peer: string, x: AgentId, coins: set<nat>)
    requires a in s.agents && s.agents[a].pc.Idle?
    requires var e := msg.(from := s.agents[a].id, to := peer);
      var s1 := Heard(Consuming(s, peer, s.agents[a].id), a, msg, Offer(x, e, Report));
      && s' == s1.(agents := s1.agents[a := s1.agents[a].(pc := Idle)], mail := s'.mail)
      && var m := Sent(x, e, a, |s1.agents[a].inbox|);
      if Accepts(s1.agents, s1.mail, x, coins) then s'.mail == Post(s1.agents, s1.mail, m, coins)
      else s'.mail.log == s1.mail.log + [m] + [Sent(a, ErrorEnvelope(s1.agents[a].id), a, |s1.agents[a].inbox|)]
    ensures Declined(s, s', a, msg, peer, x) == true
  {
    var e := msg.(from := s.agents[a].id, to := peer);
    var s1 := Heard(Consuming(s, peer, s.agents[a].id), a, msg, Offer(x, e, Report));
    OfferedOnceOf(s, s1, s', a, Own(s, a, x, e), coins);
    assert s'.agents == s.agents[a := s.agents[a].(inbox := s.agents[a].inbox + [msg])];
  }

  lemma Declines(s: State, a: AgentId, msg: Envelope, peer: string, x: AgentId, cs: seq<Choice>) returns (s': State)
    requires AnswersListed(s, a, msg, peer, x) && s.agents[a].pc.Idle? && |cs| >= 5
    ensures Leads(Heard(s, a, msg, CnfDecline(peer, msg.payload)), a, cs, s') == true
    ensures Declined(s, s', a, msg, peer, x) == true
  {
    var e, s2 := msg.(from := s.agents[a].id, to := peer), Consuming(s, peer, s.agents[a].id);
    var rest := AfterRoute(s2.tables, peer, cs[1..]);
    s' := OffersAndReports(Heard(s2, a, msg, Offer(x, e, Report)), a, x, e, rest);
    RoutesOn(s2, a, msg, e, Report, cs[1..], s');
    DeclinesOn(s, a, msg, peer, cs, s');
    DeclinedBy(s, s', a, msg, peer, x, rest[0].coins);
  }

  lemma AcceptsOn(s: State, a: AgentId, msg: Envelope, peer: string, x: AgentId, cs: seq<Choice>, s': State)
    requires a in s.agents && cs != [] && msg.payload.Confirm?
    requires var id := s.agents[a].id;
      Leads(Heard(Consuming(s, peer, id), a, msg, CnfCreate(peer, msg.payload, x, Consumed(s, peer, id))), a, cs[1..], s') == true
    ensures Leads(Heard(s, a, msg, CnfConsume(peer, msg.payload, x)), a, cs, s') == true
  {
    var id := s.agents[a].id;
    var s1 := Heard(s, a, msg, CnfConsume(peer, msg.payload, x));
    var s2 := Heard(Consuming(s, peer, id), a, msg, CnfCreate(peer, msg.payload, x, Consumed(s, peer, id)));
    RunsConfirm(s1, a, cs[0]);
    assert Accepting(s1, a, peer, msg.payload, x) == s2;
    LeadsOn(s1, a, cs, s2, s');
  }

  /** `s` with the session made. */
  function WithSession(s: State, a: AgentId, session: Session, confirm: Payload, x: AgentId, consumed: Option<nat>): State
    requires a in s.agents
  {
    s.(tables := s.tables.(sessions := s.tables.sessions[session.id := session]),
       created := s.created[session.id := Creation(session, a, |s.agents[a].inbox| + 1, confirm, x, consumed)])
  }

  /** The mode of the request consumed is that of the request on record. */
  lemma MadeAsAgreed(s: State, a: AgentId, msg: Envelope, peer: string, x: AgentId, sid: string, now: int)
    requires a in s.agents && msg.payload.Confirm? && RequestsOk(s)
    ensures var id := s.agents[a].id; var s1 := Consuming(s, peer, id);
      var pc := CnfCreate(peer, msg.payload, x, Consumed(s, peer, id));
      AgreedSession(Heard(s1, a, msg, pc), a, pc, sid, now) == SessionMade(s.tables, peer, id, msg.payload, sid, now)
  {
    var key := PendingMap.Key(peer, s.agents[a].id);
    if key in s.live { assert IsMode(s.requests[s.live[key]].request.mode); }
  }

  lemma CreatesOn(s: State, a: AgentId, msg: Envelope, peer: string, x: AgentId, consumed: Option<nat>, session: Session,
                  cs: seq<Choice>, s': State)
    requires a in s.agents && x in s.agents && cs != [] && msg.payload.Confirm? && CanCreate(s.tables, peer, s.agents[a].id)
    requires cs[0].freshId !in s.created && cs[0].freshId != "" && session.id == cs[0].freshId
    requires session.controllerId == peer && session.controlledId == s.agents[a].id
    requires var pc := CnfCreate(peer, msg.payload, x, consumed);
      session == AgreedSession(Heard(s, a, msg, pc), a, pc, cs[0].freshId, cs[0].now)
    requires Leads(Heard(WithSession(s, a, session, msg.payload, x, consumed), a, msg,
                         Route(ToController(session, s.agents[a].name),
                               ThenOwn(ToControlled(session, s.agents[x].id, s.agents[x].name)))), a, cs[1..], s') == true
    ensures Leads(Heard(s, a, msg, CnfCreate(peer, msg.payload, x, consumed)), a, cs, s') == true
  {
    var pc := CnfCreate(peer, msg.payload, x, consumed);
    var s1 := Heard(s, a, msg, pc);
    var s2 := Heard(WithSession(s, a, session, msg.payload, x, consumed), a, msg,
                    Route(ToController(session, s.agents[a].name),
                          ThenOwn(ToControlled(session, s.agents[x].id, s.agents[x].name))));
    RunsCreate(s1, a, cs[0]);
    assert Creating(s1, a, pc, cs[0]) == s2;
    LeadsOn(s1, a, cs, s2, s');
  }

  lemma CreateFails(s: State, a: AgentId, msg: Envelope, peer: string, x: AgentId, consumed: Option<nat>, cs: seq<Choice>)
    returns (s': State)
    requires a in s.agents && s.agents[a].pc.Idle? && x in s.agents && |cs| >= 2 && msg.payload.Confirm?
    requires !CanCreate(s.tables, peer, s.agents[a].id) && cs[0].freshId !in s.created && cs[0].freshId != ""
    ensures Leads(Heard(s, a, msg, CnfCreate(peer, msg.payload, x, consumed)), a, cs, s') == true
    ensures Refused(s, s', a, msg) == true
  {
    var pc := CnfCreate(peer, msg.payload, x, consumed);
    var s1, s2 := Heard(s, a, msg, pc), Heard(s, a, msg, Failing(a, s.agents[a]));
    s' := Refuses(s, a, msg, cs[1..]);
    RunsCreate(s1, a, cs[0]);
    assert Creating(s1, a, pc, cs[0]) == s2;
    LeadsOn(s1, a, cs, s2, s');
  }

  /** Two envelopes are offered, the second to the caller itself. */
  lemma OffersBoth(s: State, a: AgentId, x: AgentId, e: Envelope, own: Envelope, cs: seq<Choice>) returns (s': State)
    requires a in s.agents && |cs| >= 3 && s.agents[a].pc == Offer(x, e, ThenOwn(own))
    ensures Leads(s, a, cs, s') == true
    ensures s' == s.(agents := s.agents[a := s.agents[a].(pc := Idle)], mail := s'.mail)
    ensures var first, second := Sent(x, e, a, |s.agents[a].inbox|), Sent(a, own, a, |s.agents[a].inbox|);
      var between := Post(s.agents, s.mail, first, cs[0].coins);
      if Accepts(s.agents, between, a, cs[1].coins) then s'.mail == Post(s.agents, between, second, cs[1].coins)
      else s'.mail.log == between.log + [second] + [Sent(a, ErrorEnvelope(s.agents[a].id), a, |s.agents[a].inbox|)]
           && (x != a ==> BoxOf(s'.mail, x) == BoxOf(between, x))
  {
    var s1 := Offered(s, a, x, e, ThenOwn(own), cs[0].coins);
    s' := OffersAndReports(s1, a, a, own, cs[1..]);
    Offers(s, a, cs, s');
  }

  /** Both envelopes, as far as the queues go. */
  lemma OfferedTwiceBy(s: State, s1: State, s': State, a: AgentId, x: AgentId, e: Envelope, own: Envelope,
                       coins: set<nat>, coins': set<nat>)
    requires a in s.agents && s1.mail == s.mail && s1.agents.Keys == s.agents.Keys
    requires forall y :: y in s.agents ==> s1.agents[y].phase == s.agents[y].phase
    requires var first, second := Own(s, a, x, e), Own(s, a, a, own);
      var between := Post(s1.agents, s1.mail, first, coins);
      if Accepts(s1.agents, between, a, coins') then s'.mail == Post(s1.agents, between, second, coins')
      else s'.mail.log == between.log + [second] + [Refusal(s, a)] && (x != a ==> BoxOf(s'.mail, x) == BoxOf(between, x))
    ensures OfferedTwice(s, s', a, Own(s, a, x, e), Own(s, a, a, own)) == true
  {
    var first, second := Own(s, a, x, e), Own(s, a, a, own);
    assert s.mail.log + [first] + [second] == s.mail.log + [first, second];
    assert s.mail.log + [first] + [second] + [Refusal(s, a)] == s.mail.log + [first, second, Refusal(s, a)];
  }

  lemma StartedBy(s: State, s': State, a: AgentId, msg: Envelope, peer: string, x: AgentId, sid: string, now: int)
    requires a in s.agents && s.agents[a].pc.Idle? && x in s.agents && msg.payload.Confirm?
    requires var id := s.agents[a].id; var session := SessionMade(s.tables, peer, id, msg.payload, sid, now);
      var e, own := ToController(session, s.agents[a].name), ToControlled(session, s.agents[x].id, s.agents[x].name);
      var s1 := Heard(WithSession(Consuming(s, peer, id), a, session, msg.payload, x, Consumed(s, peer, id)), a, msg,
                      Offer(x, e, ThenOwn(own)));
      && s' == s1.(agents := s1.agents[a := s1.agents[a].(pc := Idle)], mail := s'.mail)
      && OfferedTwice(s, s', a, Own(s, a, x, e), Own(s, a, a, own)) == true
    ensures SessionStarted(s, s', a, msg, peer, x, sid) == true
  {
    assert s'.agents == s.agents[a := s.agents[a].(inbox := s.agents[a].inbox + [msg])];
    var session := SessionMade(s.tables, peer, s.agents[a].id, msg.payload, sid, now);
    assert s'.tables == s.tables.(pending := s.tables.pending - {PendingMap.Key(peer, s.agents[a].id)},
                                  sessions := s.tables.sessions[sid := session]);
  }

  /** `e` to its recipient and `own` to the caller. */
  lemma Announces(s: State, s2: State, a: AgentId, msg: Envelope, x: AgentId, e: Envelope, own: Envelope, cs: seq<Choice>)
    returns (s': State)
    requires a in s.agents && |cs| >= 5 && s2.agents == s.agents && s2.mail == s.mail
    requires (e.to in s2.tables.clients || e.to in s2.tables.webPeers) && ListedAs(s2.tables, e.to) == x
    ensures var s1 := Heard(s2, a, msg, Offer(x, e, ThenOwn(own)));
      && Leads(Heard(s2, a, msg, Route(e, ThenOwn(own))), a, cs, s') == true
      && s' == s1.(agents := s1.agents[a := s1.agents[a].(pc := Idle)], mail := s'.mail)
      && OfferedTwice(s, s', a, Own(s, a, x, e), Own(s, a, a, own)) == true
  {
    var rest := AfterRoute(s2.tables, e.to, cs);
    var s1 := Heard(s2, a, msg, Offer(x, e, ThenOwn(own)));
    s' := OffersBoth(s1, a, x, e, own, rest);
    RoutesOn(s2, a, msg, e, ThenOwn(own), cs, s');
    OfferedTwiceBy(s, s1, s', a, x, e, own, rest[0].coins, rest[1].coins);
  }

  /** An accepting answer of a listed device. */
  lemma Starts(s: State, a: AgentId, msg: Envelope, peer: string, x: AgentId, cs: seq<Choice>) returns (s': State)
    requires AnswersListed(s, a, msg, peer, x) && s.agents[a].pc.Idle? && |cs| >= 7 && x in s.agents
    requires s.agents[a].id in s.tables.clients && RequestsOk(s) == true
    requires cs[1].freshId !in s.created && cs[1].freshId != ""
    ensures Leads(Heard(s, a, msg, CnfConsume(peer, msg.payload, x)), a, cs, s') == true
    ensures SessionStarted(s, s', a, msg, peer, x, cs[1].freshId) == true
  {
    var id, sid, now := s.agents[a].id, cs[1].freshId, cs[1].now;
    var session := SessionMade(s.tables, peer, id, msg.payload, sid, now);
    var consumed, s2 := Consumed(s, peer, id), Consuming(s, peer, id);
    var s3 := WithSession(s2, a, session, msg.payload, x, consumed);
    s' := Announces(s, s3, a, msg, x, ToController(session, s.agents[a].name),
                    ToControlled(session, s.agents[x].id, s.agents[x].name), cs[1..][1..]);
    MadeAsAgreed(s, a, msg, peer, x, sid, now);
    CreatesOn(s2, a, msg, peer, x, consumed, session, cs[1..], s');
    AcceptsOn(s, a, msg, peer, x, cs, s');
    StartedBy(s, s', a, msg, peer, x, sid, now);
  }

  /** An accepting answer of a device that is not listed itself. */
  lemma Loses(s: State, a: AgentId, msg: Envelope, peer: string, x: AgentId, cs: seq<Choice>) returns (s': State)
    requires AnswersListed(s, a, msg, peer, x) && s.agents[a].pc.Idle? && |cs| >= 3 && x in s.agents
    requires s.agents[a].id !in s.tables.clients && cs[1].freshId !in s.created && cs[1].freshId != ""
    ensures Leads(Heard(s, a, msg, CnfConsume(peer, msg.payload, x)), a, cs, s') == true
    ensures RequestLost(s, s', a, msg, peer) == true
  {
    var id := s.agents[a].id;
    s' := CreateFails(Consuming(s, peer, id), a, msg, peer, x, Consumed(s, peer, id), cs[1..]);
    AcceptsOn(s, a, msg, peer, x, cs, s');
  }

  /** What a confirm of a device comes to, from any reachable state: if it has
      registered and the one it answers is listed, a declining answer is passed on to
      that one, and an accepting one makes the session and tells both ends; either
      way the pair's request is gone.  If the caller is not listed itself, an
      accepting answer only loses the request; in every other case there is an error
      reply and nothing else. */
  lemma ConfirmAlone(s: State, a: AgentId, msg: Envelope, now: int, cs: seq<Choice>) returns (s': State)
    requires ListedOk(s) == true && RequestsOk(s) == true
    requires a in s.agents && s.agents[a].pc.Idle? && !s.agents[a].web && msg.kind == SessionConfirm && |cs| >= 9
    requires cs[3].freshId !in s.created && cs[3].freshId != ""
    ensures Leads(Receive(s, a, msg, now), a, cs, s')
    ensures forall peer, x :: AnswersListed(s, a, msg, peer, x) ==>
              && x in s.agents
              && (!msg.payload.accepted ==> Declined(s, s', a, msg, peer, x))
              && (msg.payload.accepted && s.agents[a].id in s.tables.clients ==>
                    SessionStarted(s, s', a, msg, peer, x, cs[3].freshId))
              && (msg.payload.accepted && s.agents[a].id !in s.tables.clients ==> RequestLost(s, s', a, msg, peer))
    ensures (forall peer, x :: !AnswersListed(s, a, msg, peer, x)) ==> Refused(s, s', a, msg)
  {
    var peer := if msg.to == "" then msg.from else msg.to;
    if s.agents[a].id == "" || !msg.payload.Confirm? {
      Hears(s, a, msg, now, Failing(a, s.agents[a]));
      s' := Refuses(s, a, msg, cs);
    } else if peer !in s.tables.clients && peer !in s.tables.webPeers {
      Hears(s, a, msg, now, CnfClient(peer, msg.payload));
      s' := PeerMissing(s, a, msg, peer, cs);
    } else {
      Hears(s, a, msg, now, CnfClient(peer, msg.payload));
      s' := Answers(s, a, msg, peer, ListedAs(s.tables, peer), cs);
      assert AnswersListed(s, a, msg, peer, ListedAs(s.tables, peer));
    }
  }

  lemma Answers(s: State, a: AgentId, msg: Envelope, peer: string, x: AgentId, cs: seq<Choice>) returns (s': State)
    requires ListedOk(s) == true && RequestsOk(s) == true && AnswersListed(s, a, msg, peer, x) && s.agents[a].pc.Idle?
    requires |cs| >= 9 && cs[3].freshId !in s.created && cs[3].freshId != ""
    ensures Leads(Heard(s, a, msg, CnfClient(peer, msg.payload)), a, cs, s') == true
    ensures x in s.agents
    ensures if !msg.payload.accepted then Declined(s, s', a, msg, peer, x) == true
            else if s.agents[a].id in s.tables.clients then SessionStarted(s, s', a, msg, peer, x, cs[3].freshId) == true
            else RequestLost(s, s', a, msg, peer) == true
  {
    ListedLives(s, peer);
    var rest := cs[1..][1..];
    if !msg.payload.accepted {
      s' := Declines(s, a, msg, peer, x, rest);
    } else if s.agents[a].id in s.tables.clients {
      s' := Starts(s, a, msg, peer, x, rest);
    } else {
      s' := Loses(s, a, msg, peer, x, rest);
    }
    PeerLooked(s, a, msg, peer, x, cs, s');
  }

  lemma ListedLives(s: State, id: string)
    requires ListedOk(s) && (id in s.tables.clients || id in s.tables.webPeers)
    ensures ListedAs(s.tables, id) in s.agents && s.agents[ListedAs(s.tables, id)].id == id
  {
  }

  // ------------------------------------------------ recipients that have left since

  lemma FindsNobody(s: State, a: AgentId, e: Envelope, next: Next, onward: Pc, cs: seq<Choice>, s': State)
    requires a in s.agents && |cs| >= 2 && s.agents[a].pc == Route(e, next)
    requires e.to !in s.tables.clients && e.to !in s.tables.webPeers
    requires onward == Undelivered(a, s.agents[a], next) && Leads(Goto(s, a, onward), a, cs[1..][1..], s') == true
    ensures Leads(s, a, cs, s') == true
  {
    var s1, s2 := Goto(s, a, RouteWeb(e, next)), Goto(s, a, onward);
    RunsLookup(s, a, cs[0]);
    RunsLookup(s1, a, cs[1]);
    assert Goto(s1, a, onward) == s2;
    LeadsOn(s1, a, cs[1..], s2, s');
    LeadsOn(s, a, cs, s1, s');
  }

  /** The announcement to the controlled end goes out, whatever has become of the
      other. */
  lemma TellsOneselfAlone(s: State, a: AgentId, e: Envelope, own: Envelope, cs: seq<Choice>) returns (s': State)
    requires a in s.agents && |cs| >= 4 && s.agents[a].pc == Route(e, ThenOwn(own))
    requires e.to !in s.tables.clients && e.to !in s.tables.webPeers
    ensures Leads(s, a, cs, s')
    ensures s' == s.(agents := s.agents[a := s.agents[a].(pc := Idle)], mail := s'.mail)
    ensures var told, failed := Aside(s, a, a, own), Aside(s, a, a, ErrorFor(s.agents[a]));
      && (s'.mail.log == s.mail.log + [told] || s'.mail.log == s.mail.log + [told] + [failed])
      && (HasPlace(s, a) ==> s'.mail.log == s.mail.log + [told])
  {
    var s1 := Goto(s, a, Offer(a, own, Report));
    s' := OffersAndReports(s1, a, a, own, cs[1..][1..]);
    FindsNobody(s, a, e, ThenOwn(own), Offer(a, own, Report), cs, s');
    assert s1.agents[a := s1.agents[a].(pc := Idle)] == s.agents[a := s.agents[a].(pc := Idle)];
  }

  /** A decline whose requester has left since comes to an error reply. */
  lemma NobodyToTellAlone(s: State, a: AgentId, e: Envelope, cs: seq<Choice>) returns (s': State)
    requires a in s.agents && |cs| >= 3 && s.agents[a].pc == Route(e, Report)
    requires e.to !in s.tables.clients && e.to !in s.tables.webPeers
    ensures Leads(s, a, cs, s')
    ensures s' == s.(agents := s.agents[a := s.agents[a].(pc := Idle)], mail := s'.mail)
    ensures s'.mail.log == s.mail.log + [Aside(s, a, a, ErrorFor(s.agents[a]))]
  {
    var s1 := Goto(s, a, Failing(a, s.agents[a]));
    s' := RefusesAfter(s1, a, cs[1..][1..]);
    FindsNobody(s, a, e, Report, Failing(a, s.agents[a]), cs, s');
    assert s1.agents[a := s1.agents[a].(pc := Idle)] == s.agents[a := s.agents[a].(pc := Idle)];
  }

  // ------------------------------------------------------------------------ closes

  /** The notices of a session's end, to those of its ends that are listed. */
  function CloseMail(s: State, a: AgentId, session: Session, reason: string): seq<Sent>
    requires a in s.agents
  {
    var t, c, d := s.tables, session.controllerId, session.controlledId;
    (if c in t.clients || c in t.webPeers
     then [Own(s, a, ListedAs(t, c), Envelope(SessionClose, session.id, RELAY, c, Closed(session.id, reason)))] else [])
    + (if d in t.clients
       then [Own(s, a, t.clients[d], Envelope(SessionClose, session.id, RELAY, d, Closed(session.id, reason)))] else [])
  }

  lemma AddressedMail(s: State, a: AgentId, session: Session, reason: string)
    requires a in s.agents
    ensures Addressed(CloseNotices(s.tables, session, reason), a, |s.agents[a].inbox| + 1) == CloseMail(s, a, session, reason)
  {
  }

  lemma ClosesOn(s: State, a: AgentId, msg: Envelope, cs: seq<Choice>) returns (s': State)
    requires a in s.agents && s.agents[a].pc.Idle? && cs != [] && BoxesOk(s.mail) == true
    ensures Leads(Heard(s, a, msg, CloseOne(msg.sessionId)), a, cs, s') == true
    ensures Done(s, s', a, msg) == true && s' == s.(agents := s'.agents, mail := s'.mail, tables := s'.tables)
    ensures if msg.sessionId in s.tables.sessions
            then s'.tables == s.tables.(sessions := s.tables.sessions - {msg.sessionId})
                 && s'.mail.log == s.mail.log + CloseMail(s, a, s.tables.sessions[msg.sessionId],
                                                          if s.agents[a].web then "closed by web peer" else "closed by peer")
            else s'.tables == s.tables && s'.mail == s.mail
  {
    var s1, sid := Heard(s, a, msg, CloseOne(msg.sessionId)), msg.sessionId;
    var reason := CloseReason(s1.agents[a]);
    RunsClose(s1, a, cs[0]);
    s' := Removing(s1, a, sid, reason, cs[0].coins);
    LeadsNowhere(s', a, cs[1..]);
    LeadsOn(s1, a, cs, s', s');
    assert s'.agents == s.agents[a := s.agents[a].(inbox := s.agents[a].inbox + [msg])];
    if sid in s.tables.sessions {
      AddressedMail(s, a, s.tables.sessions[sid], reason);
      PostAllLog(s1.agents, s1.mail, Addressed(CloseNotices(s.tables, s.tables.sessions[sid], reason), a, |s1.agents[a].inbox|),
                 cs[0].coins);
    }
  }

  /** A close, from a device or a visitor, whoever that is: the session it names is
      gone, and each of its ends that is listed is told, the controller first; if
      there is no such session nothing happens, and if none is named there is an
      error reply. */
  lemma CloseAlone(s: State, a: AgentId, msg: Envelope, now: int, cs: seq<Choice>) returns (s': State)
    requires a in s.agents && s.agents[a].pc.Idle? && msg.kind == SessionClose && cs != [] && BoxesOk(s.mail) == true
    ensures Leads(Receive(s, a, msg, now), a, cs, s')
    ensures msg.sessionId == "" ==> Refused(s, s', a, msg)
    ensures msg.sessionId != "" ==>
              && Done(s, s', a, msg)
              && (if msg.sessionId in s.tables.sessions
                  then s'.tables == s.tables.(sessions := s.tables.sessions - {msg.sessionId})
                       && s'.mail.log == s.mail.log + CloseMail(s, a, s.tables.sessions[msg.sessionId],
                                                                if s.agents[a].web then "closed by web peer" else "closed by peer")
                  else s'.tables == s.tables && s'.mail == s.mail)
  {
    if msg.sessionId == "" {
      Hears(s, a, msg, now, Failing(a, s.agents[a]));
      s' := Refuses(s, a, msg, cs);
    } else {
      Hears(s, a, msg, now, CloseOne(msg.sessionId));
      s' := ClosesOn(s, a, msg, cs);
    }
  }
}
