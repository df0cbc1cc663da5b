/** What every step of the relay keeps, whatever the interleaving. */
module RelayInvariants {
  import opened Protocol
  import opened Registry
  import opened RelaySystem
  import PendingMap
  import WebShares

  // ------------------------------------------------------------------ identities

  predicate IsDevice(s: State, a: AgentId, id: string) {
    a in s.agents && !s.agents[a].web && s.agents[a].id == id && id != ""
  }

  predicate IsParty(s: State, a: AgentId, id: string) {
    a in s.agents && s.agents[a].id == id && id != ""
  }

  /** `a` goes by `id`, and the relay has listed it under that id at some time. */
  predicate IsSeated(s: State, a: AgentId, id: string) {
    IsParty(s, a, id) && (id, a) in s.seated
  }

  /** The tables list connections under their own ids. */
  ghost predicate ListedOk(s: State) {
    && (forall id :: id in s.tables.clients ==>
          IsSeated(s, s.tables.clients[id], id) && !s.agents[s.tables.clients[id]].web)
    && (forall id :: id in s.tables.webPeers ==>
          IsSeated(s, s.tables.webPeers[id], id) && s.agents[s.tables.webPeers[id]].web)
    && (forall p :: p in s.seated ==> IsParty(s, p.1, p.0))
  }

  /** Nobody shares the id of a visitor. */
  ghost predicate IdsApart(s: State) {
    && (forall a, b :: a in s.agents && b in s.agents && s.agents[a].web && a != b ==>
          s.agents[a].id != s.agents[b].id)
    && (forall a :: a in s.agents && s.agents[a].web ==> s.agents[a].id != "")
  }

  ghost predicate TablesOk(s: State) {
    EndpointsOnline(s.tables) && WithinCapacity(s.tables, s.cfg.maxClients) && ListedOk(s) && IdsApart(s)
  }

  // -------------------------------------------------------------------- history

  predicate SameSession(a: Session, b: Session) {
    a == b.(lastActivityAt := a.lastActivityAt)
  }

  /** Message number `index` (from 1) that the reader of `a` has taken. */
  predicate Took(s: State, a: AgentId, index: nat, msg: Envelope) {
    a in s.agents && 0 < index <= |s.agents[a].inbox| && s.agents[a].inbox[index - 1] == msg
  }

  predicate TookConfirm(s: State, a: AgentId, index: nat, peerId: string, confirm: Payload) {
    && a in s.agents && 0 < index <= |s.agents[a].inbox|
    && confirm.Confirm?
    && var msg := s.agents[a].inbox[index - 1];
       msg.kind == SessionConfirm && msg.payload == confirm && ConfirmPeer(msg) == peerId
  }

  /** Where the mode of a session comes from. */
  predicate ConsumedOk(s: State, consumed: Option<nat>, controller: string, controlled: string) {
    consumed.Some? ==>
      && consumed.value < |s.requests| && consumed.value in s.taken
      && var request := s.requests[consumed.value].request;
         PendingMap.Key(request.controllerId, request.controlledId) == PendingMap.Key(controller, controlled)
  }

  predicate CreationOk(s: State, sid: string)
    requires sid in s.created
  {
    var c := s.created[sid];
    && c.session.id == sid && sid != ""
    && c.session.controllerId != "" && SessionWellFormed(c.session)
    && IsDevice(s, c.source, c.session.controlledId)
    && TookConfirm(s, c.source, c.index, c.session.controllerId, c.confirm)
    && c.confirm.accepted
    && IsSeated(s, c.peer, c.session.controllerId)
    && ConsumedOk(s, c.consumed, c.session.controllerId, c.session.controlledId)
    && c.session.mode == NormalizeMode(AgreedMode(s, c.confirm, c.consumed))
    && c.session.inputAllowed == (c.confirm.confirmInput && c.session.mode == MODE_VIEW_CONTROL)
  }

  /** Stored sessions are created ones; a confirm makes one session and a
      request is consumed for one session. */
  ghost predicate CreatedOk(s: State) {
    && (forall sid :: sid in s.created ==> CreationOk(s, sid))
    && SessionsCreated(s)
    && OneEach(s)
  }

  /** The stored requests, and which of them are still pending. */
  ghost predicate RequestsOk(s: State) {
    LiveOk(s) && HistoryOk(s)
  }

  ghost predicate LiveOk(s: State) {
    && s.live.Keys == s.tables.pending.Keys
    && (forall k :: k in s.live ==>
          && s.live[k] < |s.requests| && s.live[k] !in s.taken
          && s.requests[s.live[k]].request == s.tables.pending[k]
          && k == PendingMap.Key(s.tables.pending[k].controllerId, s.tables.pending[k].controlledId))
  }

  ghost predicate HistoryOk(s: State) {
    && (forall n :: n in s.taken ==> n < |s.requests|)
    && (forall n :: 0 <= n < |s.requests| ==>
          && IsParty(s, s.requests[n].source, s.requests[n].request.controllerId)
          && s.requests[n].index <= |s.agents[s.requests[n].source].inbox|
          && IsMode(s.requests[n].request.mode))
  }

  // ------------------------------------------------------------------- envelopes

  predicate IsControllerReady(envelope: Envelope) {
    envelope.kind == SessionReady && envelope.payload.Ready? && envelope.payload.localRole == ROLE_CONTROLLER
  }

  /** What may be queued on behalf of `a`, which has taken `index` messages. */
  ghost predicate EnvelopeOk(s: State, a: AgentId, index: nat, e: Envelope)
    requires a in s.agents
  {
    if IsSessionTraffic(e.kind) then
      && e.sessionId in s.created
      && var session := s.created[e.sessionId].session;
      && IsParty(s, a, e.from) && e.to != ""
      && (|| (e.from == session.controllerId && e.to == session.controlledId)
          || (e.from == session.controlledId && e.to == session.controllerId && !ControllerOnly(e.kind)))
      && (IsInput(e.kind) ==> session.inputAllowed)
      && 0 < index <= |s.agents[a].inbox|
      && e == Stamped(s.agents[a].inbox[index - 1], e.from, e.to)
    else
      match e.kind
      case SessionReady =>
        && e.sessionId in s.created
        && var c := s.created[e.sessionId];
        && c.source == a && c.index == index && e.to != ""
        && e.payload.Ready?
        && (|| e == ReadyToController(c.session, e.payload.peerName)
            || e == ReadyToControlled(c.session, c.session.controllerId, e.payload.peerName))
      case SessionClose =>
        && e.sessionId in s.created && e.sessionId !in s.tables.sessions
        && e.from == RELAY && e.to != ""
        && (e.to == s.created[e.sessionId].session.controllerId || e.to == s.created[e.sessionId].session.controlledId)
      case SessionRequest =>
        && IsParty(s, a, e.from) && e.to != ""
        && e.payload.Request? && e.payload.target == e.to && e.payload.authCode == ""
        && IsMode(e.payload.mode) && e.payload.inputRequested == AllowsInput(e.payload.mode)
      case SessionConfirm =>
        IsDevice(s, a, e.from) && e.to != "" && e.payload.Confirm? && !e.payload.accepted
      case ErrorReply | HeartbeatPong | WebShareStatus => e.from == RELAY
      case _ => false
  }

  predicate IsReply(kind: Kind) {
    kind == ErrorReply || kind == HeartbeatPong || kind == WebShareStatus
  }

  /** Queued to the connection that goes by the id the envelope names: the sender
      itself, or one the relay has listed under that id. */
  predicate RecipientOk(s: State, x: AgentId, a: AgentId, e: Envelope) {
    && x in s.agents
    && (IsReply(e.kind) ==> x == a)
    && (!IsReply(e.kind) ==> s.agents[x].id == e.to)
    && (if e.kind == SessionReady && !IsControllerReady(e) then x == a
        else !IsReply(e.kind) ==> (e.to, x) in s.seated)
  }

  ghost predicate SentOk(s: State, m: Sent) {
    m.source in s.agents && EnvelopeOk(s, m.source, m.index, m.envelope)
    && RecipientOk(s, m.to, m.source, m.envelope)
  }

  ghost predicate LogOk(s: State) {
    forall i :: 0 <= i < |s.mail.log| ==> SentOk(s, s.mail.log[i])
  }

  /** One session.ready per session goes out to the controller's side. */
  predicate ReadyOnce(s: State) {
    forall i, j :: 0 <= i < j < |s.mail.log| && IsControllerReady(s.mail.log[i].envelope)
                   && IsControllerReady(s.mail.log[j].envelope) ==>
      s.mail.log[i].envelope.sessionId != s.mail.log[j].envelope.sessionId
  }

  /** Forwarded traffic is offered in the order its sender submitted it. */
  predicate InOrder(s: State) {
    && (forall i :: 0 <= i < |s.mail.log| && IsSessionTraffic(s.mail.log[i].envelope.kind) ==>
          s.mail.log[i].source in s.agents && s.mail.log[i].index <= |s.agents[s.mail.log[i].source].inbox|)
    && (forall i, j ::
          (0 <= i < j < |s.mail.log| && s.mail.log[i].source == s.mail.log[j].source
           && IsSessionTraffic(s.mail.log[i].envelope.kind) && IsSessionTraffic(s.mail.log[j].envelope.kind)) ==>
          s.mail.log[i].index < s.mail.log[j].index)
  }

  predicate BoxOk(mail: Mail, x: AgentId, box: Box) {
    && box.written <= |box.picked| <= box.written + QUEUE_CAPACITY
    && (forall i :: 0 <= i < |box.picked| ==> box.picked[i] < |mail.log| && mail.log[box.picked[i]].to == x)
    && (forall i, j :: 0 <= i < j < |box.picked| ==> box.picked[i] < box.picked[j])
  }

  predicate BoxesOk(mail: Mail) {
    forall x :: x in mail.boxes ==> BoxOk(mail, x, mail.boxes[x])
  }

  // -------------------------------------------------------------------- handlers

  /** The confirm being handled has made no session yet. */
  predicate NoneMadeYet(s: State, a: AgentId) {
    a in s.agents &&
    forall sid :: sid in s.created && s.created[sid].source == a ==> s.created[sid].index < |s.agents[a].inbox|
  }

  predicate UnusedRequest(s: State, consumed: Option<nat>) {
    consumed.Some? ==> forall sid :: sid in s.created ==> s.created[sid].consumed != consumed
  }

  predicate NoReadyYet(s: State, sid: string) {
    forall i :: 0 <= i < |s.mail.log| && IsControllerReady(s.mail.log[i].envelope) ==>
      s.mail.log[i].envelope.sessionId != sid
  }

  predicate NoTrafficYet(s: State, a: AgentId) {
    a in s.agents &&
    forall i :: 0 <= i < |s.mail.log| && s.mail.log[i].source == a && IsSessionTraffic(s.mail.log[i].envelope.kind) ==>
      s.mail.log[i].index < |s.agents[a].inbox|
  }

  predicate Confirming(s: State, a: AgentId, peerId: string, confirm: Payload) {
    && a in s.agents && IsDevice(s, a, s.agents[a].id)
    && TookConfirm(s, a, |s.agents[a].inbox|, peerId, confirm)
    && NoneMadeYet(s, a)
  }

  predicate Forwarding(s: State, a: AgentId, msg: Envelope) {
    && a in s.agents && IsSessionTraffic(msg.kind)
    && s.agents[a].inbox != [] && msg == s.agents[a].inbox[|s.agents[a].inbox| - 1]
    && NoTrafficYet(s, a)
  }

  /** The first look at the session, kept across the second one. */
  predicate GuardPassed(s: State, a: AgentId, msg: Envelope) {
    ControllerOnly(msg.kind) ==>
      && msg.sessionId in s.created && a in s.agents
      && s.created[msg.sessionId].session.controllerId == s.agents[a].id
      && (IsInput(msg.kind) ==> s.created[msg.sessionId].session.inputAllowed)
  }

  /** An envelope a handler is about to queue, and what it may queue after. */
  ghost predicate PendingEnvelope(s: State, a: AgentId, e: Envelope) {
    && a in s.agents
    && EnvelopeOk(s, a, |s.agents[a].inbox|, e) && e.kind != SessionClose
    && (IsControllerReady(e) ==> NoReadyYet(s, e.sessionId))
    && (IsSessionTraffic(e.kind) ==> NoTrafficYet(s, a))
  }

  ghost predicate NextOk(s: State, a: AgentId, next: Next) {
    match next
    case ThenOwn(own) =>
      PendingEnvelope(s, a, own) && own.kind == SessionReady && !IsControllerReady(own) && RecipientOk(s, a, a, own)
    case ThenOwnIfSent(own) => PendingEnvelope(s, a, own) && own.kind == WebShareStatus
    case _ => true
  }

  predicate RequestOk(s: State, a: AgentId, request: Payload) {
    a in s.agents && IsDevice(s, a, s.agents[a].id) && Requesting(s.agents[a], request)
  }

  predicate TargetOk(s: State, a: AgentId, x: AgentId, request: Payload) {
    RequestOk(s, a, request) && IsSeated(s, x, request.target)
  }

  predicate AcceptOk(s: State, a: AgentId, peerId: string, confirm: Payload, peer: AgentId) {
    Confirming(s, a, peerId, confirm) && confirm.accepted && IsSeated(s, peer, peerId)
  }

  ghost predicate RouteOk(s: State, a: AgentId, e: Envelope, next: Next) {
    PendingEnvelope(s, a, e) && NextOk(s, a, next) && Routable(e)
  }

  ghost predicate OfferOk(s: State, a: AgentId, x: AgentId, e: Envelope, next: Next) {
    PendingEnvelope(s, a, e) && NextOk(s, a, next) && RecipientOk(s, x, a, e)
  }

  ghost predicate ForwardOk(s: State, a: AgentId, e: Envelope) {
    PendingEnvelope(s, a, e) && IsSessionTraffic(e.kind)
  }

  predicate VisitOk(s: State, a: AgentId, x: AgentId) {
    a in s.agents && Visiting(s.agents[a]) && IsSeated(s, x, s.agents[a].controlled)
  }

  /** What justifies the position of the handler of `a`.  Lemmas state it as
      `PcOk(..) == true`, so that the verifier takes it as one fact instead of
      splitting it into the conjuncts of every position. */
  ghost predicate PcOk(s: State, a: AgentId, pc: Pc)
    requires a in s.agents
  {
    match pc
    case Idle => true
    case Registering => Newcoming(s, a)
    case ClosingOther(other) => other in s.agents
    case ReqLookup(request) => RequestOk(s, a, request)
    case ReqCheck(x, request) => TargetOk(s, a, x, request)
    case ReqStore(x, request) => TargetOk(s, a, x, request)
    case CnfClient(peerId, confirm) => Confirming(s, a, peerId, confirm)
    case CnfWeb(peerId, confirm, client) =>
      Confirming(s, a, peerId, confirm) && (client.Some? ==> IsSeated(s, client.value, peerId))
    case CnfDecline(peerId, confirm) => Confirming(s, a, peerId, confirm) && !confirm.accepted && peerId != ""
    case CnfConsume(peerId, confirm, peer) => AcceptOk(s, a, peerId, confirm, peer)
    case CnfCreate(peerId, confirm, peer, consumed) =>
      && AcceptOk(s, a, peerId, confirm, peer)
      && ConsumedOk(s, consumed, peerId, s.agents[a].id) && UnusedRequest(s, consumed)
    case Route(e, next) => RouteOk(s, a, e, next)
    case RouteWeb(e, next) => RouteOk(s, a, e, next)
    case Offer(x, e, next) => OfferOk(s, a, x, e, next)
    case FwdGuard(msg) => Forwarding(s, a, msg) && ControllerOnly(msg.kind)
    case FwdRead(msg) => Forwarding(s, a, msg) && GuardPassed(s, a, msg) && !s.agents[a].web
    case FwdClient(e) => ForwardOk(s, a, e)
    case FwdWeb(e) => ForwardOk(s, a, e)
    case FwdTouch(x, e) => ForwardOk(s, a, e) && RecipientOk(s, x, a, e)
    case CloseOne(sid) => true
    case ShareCreate(spec) => spec.ShareSpec?
    case ShareList => true
    case ShareRevoke(ref) => ref.ShareRef?
    case WebCheck => Visiting(s.agents[a])
    case WebTarget => Visiting(s.agents[a])
    case WebJoin(x) => VisitOk(s, a, x)
    case WebStore(x) => VisitOk(s, a, x)
  }

  /** A connection that has sent its id and is not admitted or refused yet. */
  predicate Newcoming(s: State, a: AgentId) {
    && a in s.agents && IsDevice(s, a, s.agents[a].id)
    && (s.agents[a].id, a) !in s.seated
    && (forall i :: 0 <= i < |s.mail.log| && s.mail.log[i].source == a ==> !IsSessionTraffic(s.mail.log[i].envelope.kind))
  }

  predicate Visiting(agent: Agent) {
    agent.web && agent.id != "" && IsMode(agent.shareMode)
  }

  predicate Requesting(agent: Agent, request: Payload) {
    && request.Request? && request.target != "" && agent.inbox != []
    && agent.inbox[|agent.inbox| - 1].kind == SessionRequest
  }

  /** Envelopes that are sent by looking up the id they name. */
  predicate Routable(e: Envelope) {
    IsControllerReady(e) || e.kind == SessionConfirm
  }

  ghost predicate PcsOk(s: State) {
    && (forall a :: a in s.agents ==> PcOk(s, a, s.agents[a].pc))
    && (forall a, b :: a in s.agents && b in s.agents && a != b ==> NoShared(s.agents[a].pc, s.agents[b].pc))
  }

  /** No two handlers hold the same consumed request. */
  predicate NoShared(p: Pc, q: Pc) {
    p.CnfCreate? && q.CnfCreate? && p.consumed.Some? ==> p.consumed != q.consumed
  }

  ghost predicate Inv(s: State) {
    TablesOk(s) && CreatedOk(s) && RequestsOk(s) && LogOk(s) && ReadyOnce(s) && InOrder(s) && BoxesOk(s.mail) && PcsOk(s)
  }

  // ------------------------------------------------------------------ monotonicity

  /** What never changes: identities, messages taken, creations, removals. */
  ghost predicate Grows(s: State, s': State) {
    && s'.cfg == s.cfg
    && (forall a :: a in s.agents ==>
          && a in s'.agents && s'.agents[a].web == s.agents[a].web
          && (s.agents[a].id != "" ==> s'.agents[a].id == s.agents[a].id)
          && s.agents[a].inbox <= s'.agents[a].inbox
          && (s.agents[a].phase == Torn ==> s'.agents[a].phase == Torn))
    && (forall sid :: sid in s.created ==> sid in s'.created && s'.created[sid] == s.created[sid])
    && (forall sid :: sid in s.created && sid !in s.tables.sessions ==> sid !in s'.tables.sessions)
    && s.requests <= s'.requests && s.taken <= s'.taken && s.seated <= s'.seated
    && s.mail.log <= s'.mail.log
  }

  /** A step of `a` alone: new creations and new mail are its own doing. */
  ghost predicate LocalStep(s: State, s': State, a: AgentId) {
    && Grows(s, s')
    && a in s'.agents
    && (forall b :: b in s'.agents && b != a ==> b in s.agents && s'.agents[b] == s.agents[b])
    && NewCreations(s, s', a)
    && NewMail(s, s', a)
    && NewSeats(s, s', a)
  }

  predicate NewSeats(s: State, s': State, a: AgentId) {
    forall p :: p in s'.seated && p !in s.seated ==> p.1 == a
  }

  /** Mail that matters for ordering and uniqueness is offered one at a time. */
  ghost predicate NewMailOk(s: State, s': State, a: AgentId, m: Sent)
    requires a in s.agents
  {
    && m.source == a && m.index == |s.agents[a].inbox|
    && SentOk(s', m)
    && (IsControllerReady(m.envelope) || IsSessionTraffic(m.envelope.kind) ==>
          |s'.mail.log| == |s.mail.log| + 1 && PendingEnvelope(s, a, m.envelope))
  }

  /** `b` did nothing but possibly move on or start closing. */
  predicate SameSelf(s: State, s': State, b: AgentId) {
    && b in s.agents && b in s'.agents
    && s'.agents[b] == s.agents[b].(pc := s'.agents[b].pc, phase := s'.agents[b].phase)
  }

  lemma EnvelopeGrows(s: State, s': State, a: AgentId, index: nat, e: Envelope)
    requires Grows(s, s') && a in s.agents && EnvelopeOk(s, a, index, e)
    ensures EnvelopeOk(s', a, index, e)
  {
  }

  lemma CreationGrows(s: State, s': State, sid: string)
    requires Grows(s, s') && sid in s.created && CreationOk(s, sid)
    ensures CreationOk(s', sid)
  {
  }

  ghost predicate NewMail(s: State, s': State, a: AgentId) {
    && s.mail.log <= s'.mail.log
    && (forall i :: |s.mail.log| <= i < |s'.mail.log| ==> a in s.agents && NewMailOk(s, s', a, s'.mail.log[i]))
  }

  /** The new mail is no traffic of `b` and announces no session `b` made. */
  predicate QuietFor(s: State, s': State, b: AgentId) {
    && s.mail.log <= s'.mail.log
    && forall i :: |s.mail.log| <= i < |s'.mail.log| ==>
         && (IsSessionTraffic(s'.mail.log[i].envelope.kind) ==> s'.mail.log[i].source != b)
         && (IsControllerReady(s'.mail.log[i].envelope) ==>
               && s'.mail.log[i].envelope.sessionId in s.created
               && s.created[s'.mail.log[i].envelope.sessionId].source != b)
  }

  lemma NewMailIsQuiet(s: State, s': State, a: AgentId, b: AgentId)
    requires NewMail(s, s', a) && a != b
    ensures QuietFor(s, s', b)
  {
  }

  lemma NoReadyGrows(s: State, s': State, b: AgentId, sid: string)
    requires QuietFor(s, s', b) && sid in s.created && s.created[sid].source == b
    requires NoReadyYet(s, sid)
    ensures NoReadyYet(s', sid)
  {
    forall i | 0 <= i < |s'.mail.log| && IsControllerReady(s'.mail.log[i].envelope)
      ensures s'.mail.log[i].envelope.sessionId != sid
    {
      if i < |s.mail.log| { assert s'.mail.log[i] == s.mail.log[i]; }
    }
  }

  lemma NoTrafficGrows(s: State, s': State, b: AgentId)
    requires QuietFor(s, s', b) && SameSelf(s, s', b)
    requires NoTrafficYet(s, b)
    ensures NoTrafficYet(s', b)
  {
    forall i | 0 <= i < |s'.mail.log| && s'.mail.log[i].source == b && IsSessionTraffic(s'.mail.log[i].envelope.kind)
      ensures s'.mail.log[i].index < |s'.agents[b].inbox|
    {
      assert i < |s.mail.log|;
      assert s'.mail.log[i] == s.mail.log[i];
    }
  }

  lemma PendingEnvelopeGrows(s: State, s': State, b: AgentId, e: Envelope)
    requires Grows(s, s') && QuietFor(s, s', b) && SameSelf(s, s', b)
    requires PendingEnvelope(s, b, e)
    ensures PendingEnvelope(s', b, e)
  {
    EnvelopeGrows(s, s', b, |s.agents[b].inbox|, e);
    if IsControllerReady(e) { NoReadyGrows(s, s', b, e.sessionId); }
    if IsSessionTraffic(e.kind) { NoTrafficGrows(s, s', b); }
  }

  lemma RecipientGrows(s: State, s': State, x: AgentId, a: AgentId, index: nat, e: Envelope)
    requires Grows(s, s') && a in s.agents && EnvelopeOk(s, a, index, e) && RecipientOk(s, x, a, e)
    ensures RecipientOk(s', x, a, e)
  {
  }

  lemma NextGrows(s: State, s': State, b: AgentId, next: Next)
    requires Grows(s, s') && QuietFor(s, s', b) && SameSelf(s, s', b)
    requires NextOk(s, b, next)
    ensures NextOk(s', b, next)
  {
    match next
    case ThenOwn(own) =>
      PendingEnvelopeGrows(s, s', b, own);
      RecipientGrows(s, s', b, b, |s.agents[b].inbox|, own);
    case ThenOwnIfSent(own) => PendingEnvelopeGrows(s, s', b, own);
    case _ =>
  }

  /** The position of another handler stays justified. */
  lemma RouteOkGrows(s: State, s': State, b: AgentId, e: Envelope, next: Next)
    requires Grows(s, s') && QuietFor(s, s', b) && SameSelf(s, s', b)
    requires RouteOk(s, b, e, next)
    ensures RouteOk(s', b, e, next)
  {
    PendingEnvelopeGrows(s, s', b, e);
    NextGrows(s, s', b, next);
  }

  lemma OfferOkGrows(s: State, s': State, b: AgentId, x: AgentId, e: Envelope, next: Next)
    requires Grows(s, s') && QuietFor(s, s', b) && SameSelf(s, s', b)
    requires OfferOk(s, b, x, e, next)
    ensures OfferOk(s', b, x, e, next)
  {
    PendingEnvelopeGrows(s, s', b, e);
    NextGrows(s, s', b, next);
    RecipientGrows(s, s', x, b, |s.agents[b].inbox|, e);
  }

  lemma ForwardOkGrows(s: State, s': State, b: AgentId, e: Envelope)
    requires Grows(s, s') && QuietFor(s, s', b) && SameSelf(s, s', b)
    requires ForwardOk(s, b, e)
    ensures ForwardOk(s', b, e) == true
  {
    PendingEnvelopeGrows(s, s', b, e);
  }

  lemma RoutePcGrows(s: State, s': State, b: AgentId, pc: Pc)
    requires Grows(s, s') && QuietFor(s, s', b) && SameSelf(s, s', b)
    requires pc.Route? || pc.RouteWeb?
    requires PcOk(s, b, pc) == true
    ensures PcOk(s', b, pc) == true
  {
    RouteOkGrows(s, s', b, pc.envelope, pc.next);
  }

  lemma OfferPcGrows(s: State, s': State, b: AgentId, pc: Pc)
    requires Grows(s, s') && QuietFor(s, s', b) && SameSelf(s, s', b)
    requires pc.Offer?
    requires PcOk(s, b, pc) == true
    ensures PcOk(s', b, pc) == true
  {
    OfferOkGrows(s, s', b, pc.target, pc.envelope, pc.next);
  }

  lemma ForwardPcGrows(s: State, s': State, b: AgentId, pc: Pc)
    requires Grows(s, s') == true && QuietFor(s, s', b) == true && SameSelf(s, s', b)
    requires pc.FwdClient? || pc.FwdWeb?
    requires PcOk(s, b, pc) == true
    ensures PcOk(s', b, pc) == true
  {
    ForwardOkGrows(s, s', b, pc.envelope);
  }

  lemma TouchPcGrows(s: State, s': State, b: AgentId, pc: Pc)
    requires Grows(s, s') && QuietFor(s, s', b) && SameSelf(s, s', b)
    requires pc.FwdTouch?
    requires PcOk(s, b, pc) == true
    ensures PcOk(s', b, pc) == true
  {
    ForwardOkGrows(s, s', b, pc.envelope);
    RecipientGrows(s, s', pc.target, b, |s.agents[b].inbox|, pc.envelope);
  }

  lemma MailPcGrows(s: State, s': State, b: AgentId, pc: Pc)
    requires Grows(s, s') && QuietFor(s, s', b) && SameSelf(s, s', b)
    requires IsMailPc(pc)
    requires PcOk(s, b, pc) == true
    ensures PcOk(s', b, pc) == true
  {
    if pc.Offer? {
      OfferPcGrows(s, s', b, pc);
    } else if pc.Route? || pc.RouteWeb? {
      RoutePcGrows(s, s', b, pc);
    } else if pc.FwdTouch? {
      TouchPcGrows(s, s', b, pc);
    } else {
      ForwardPcGrows(s, s', b, pc);
    }
  }

  lemma ForwardingGrows(s: State, s': State, b: AgentId, msg: Envelope)
    requires QuietFor(s, s', b) && SameSelf(s, s', b) && Forwarding(s, b, msg)
    ensures Forwarding(s', b, msg) == true
  {
    NoTrafficGrows(s, s', b);
  }

  lemma GuardPassedGrows(s: State, s': State, b: AgentId, msg: Envelope)
    requires Grows(s, s') && SameSelf(s, s', b) && GuardPassed(s, b, msg)
    ensures GuardPassed(s', b, msg) == true
  {
  }

  lemma ReadPcGrows(s: State, s': State, b: AgentId, pc: Pc)
    requires Grows(s, s') == true && QuietFor(s, s', b) == true && SameSelf(s, s', b)
    requires pc.FwdGuard? || pc.FwdRead?
    requires PcOk(s, b, pc) == true
    ensures PcOk(s', b, pc) == true
  {
    ForwardingGrows(s, s', b, pc.envelope);
    if pc.FwdRead? { GuardPassedGrows(s, s', b, pc.envelope); }
  }

  ghost predicate NewCreations(s: State, s': State, a: AgentId) {
    forall sid :: sid in s'.created && sid !in s.created ==>
      && a in s.agents && s.agents[a].pc.CnfCreate?
      && s'.created[sid].source == a
      && s'.created[sid].index == |s.agents[a].inbox|
      && s'.created[sid].consumed == s.agents[a].pc.consumed
  }

  lemma ConfirmPcGrows(s: State, s': State, a: AgentId, b: AgentId, pc: Pc)
    requires Grows(s, s') && NewCreations(s, s', a) && b in s.agents && b != a
    requires SameSelf(s, s', b)
    requires IsConfirmPc(pc)
    requires a in s.agents ==> NoShared(pc, s.agents[a].pc)
    requires PcOk(s, b, pc) == true
    ensures PcOk(s', b, pc) == true
  {
    NoneMadeGrows(s, s', a, b);
    if pc.CnfCreate? { ConsumedGrows(s, s', a, b, pc.consumed, pc.peerId); }
  }

  lemma NoneMadeGrows(s: State, s': State, a: AgentId, b: AgentId)
    requires NewCreations(s, s', a) && b != a && SameSelf(s, s', b) && NoneMadeYet(s, b)
    requires forall sid :: sid in s.created ==> sid in s'.created && s'.created[sid] == s.created[sid]
    ensures NoneMadeYet(s', b) == true
  {
  }

  lemma ConsumedGrows(s: State, s': State, a: AgentId, b: AgentId, consumed: Option<nat>, peerId: string)
    requires Grows(s, s') && NewCreations(s, s', a) && b in s.agents
    requires consumed.Some? && a in s.agents && s.agents[a].pc.CnfCreate? ==> consumed != s.agents[a].pc.consumed
    requires UnusedRequest(s, consumed) && ConsumedOk(s, consumed, peerId, s.agents[b].id)
    ensures UnusedRequest(s', consumed) == true && ConsumedOk(s', consumed, peerId, s.agents[b].id) == true
  {
  }

  lemma PlainPcGrows(s: State, s': State, b: AgentId, pc: Pc)
    requires Grows(s, s') && SameSelf(s, s', b)
    requires !IsMailPc(pc) && !IsConfirmPc(pc) && !pc.FwdGuard? && !pc.FwdRead? && !pc.Registering?
    requires PcOk(s, b, pc) == true
    ensures PcOk(s', b, pc) == true
  {
  }

  lemma NewcomingGrows(s: State, s': State, b: AgentId)
    requires Grows(s, s') && QuietFor(s, s', b) && SameSelf(s, s', b)
    requires Newcoming(s, b) && (s.agents[b].id, b) !in s'.seated
    ensures Newcoming(s', b)
  {
    forall i | 0 <= i < |s'.mail.log| && s'.mail.log[i].source == b
      ensures !IsSessionTraffic(s'.mail.log[i].envelope.kind)
    {
      if i < |s.mail.log| { assert s'.mail.log[i] == s.mail.log[i]; }
    }
  }

  lemma RegisteringPcGrows(s: State, s': State, b: AgentId)
    requires Grows(s, s') && QuietFor(s, s', b) && SameSelf(s, s', b)
    requires PcOk(s, b, Registering) == true && (s.agents[b].id, b) !in s'.seated
    ensures PcOk(s', b, Registering) == true
  {
    NewcomingGrows(s, s', b);
  }

  predicate IsMailPc(pc: Pc) {
    pc.Route? || pc.RouteWeb? || pc.Offer? || pc.FwdClient? || pc.FwdWeb? || pc.FwdTouch?
  }

  predicate IsConfirmPc(pc: Pc) {
    pc.CnfClient? || pc.CnfWeb? || pc.CnfDecline? || pc.CnfConsume? || pc.CnfCreate?
  }

  lemma PcGrows(s: State, s': State, a: AgentId, b: AgentId, pc: Pc)
    requires Grows(s, s') == true && QuietFor(s, s', b) == true && SameSelf(s, s', b) == true
    requires NewCreations(s, s', a) == true && b != a
    requires a in s.agents ==> NoShared(pc, s.agents[a].pc)
    requires PcOk(s, b, pc) == true && (pc.Registering? ==> (s.agents[b].id, b) !in s'.seated)
    ensures PcOk(s', b, pc) == true
  {
    if IsMailPc(pc) {
      MailPcGrows(s, s', b, pc);
    } else if IsConfirmPc(pc) {
      ConfirmPcGrows(s, s', a, b, pc);
    } else if pc.FwdGuard? || pc.FwdRead? {
      ReadPcGrows(s, s', b, pc);
    } else if pc.Registering? {
      RegisteringPcGrows(s, s', b);
    } else {
      PlainPcGrows(s, s', b, pc);
    }
  }

  lemma LogGrows(s: State, s': State, a: AgentId)
    requires Grows(s, s') && NewMail(s, s', a) && LogOk(s)
    ensures LogOk(s')
  {
    forall i | 0 <= i < |s'.mail.log|
      ensures SentOk(s', s'.mail.log[i])
    {
      if i < |s.mail.log| {
        var m := s.mail.log[i];
        assert s'.mail.log[i] == m && SentOk(s, m);
        EnvelopeGrows(s, s', m.source, m.index, m.envelope);
        RecipientGrows(s, s', m.to, m.source, m.index, m.envelope);
      }
    }
  }

  lemma ReadyOnceGrows(s: State, s': State, a: AgentId)
    requires NewMail(s, s', a) && ReadyOnce(s)
    ensures ReadyOnce(s')
  {
    forall i, j |
      0 <= i < j < |s'.mail.log| && IsControllerReady(s'.mail.log[i].envelope)
      && IsControllerReady(s'.mail.log[j].envelope)
      ensures s'.mail.log[i].envelope.sessionId != s'.mail.log[j].envelope.sessionId
    {
      assert i < |s.mail.log|;
      assert s'.mail.log[i] == s.mail.log[i];
      if j < |s.mail.log| { assert s'.mail.log[j] == s.mail.log[j]; }
    }
  }

  lemma InOrderGrows(s: State, s': State, a: AgentId)
    requires Grows(s, s') && NewMail(s, s', a) && InOrder(s)
    ensures InOrder(s')
  {
    forall i | 0 <= i < |s'.mail.log| && IsSessionTraffic(s'.mail.log[i].envelope.kind)
      ensures s'.mail.log[i].source in s'.agents && s'.mail.log[i].index <= |s'.agents[s'.mail.log[i].source].inbox|
    {
      if i < |s.mail.log| { assert s'.mail.log[i] == s.mail.log[i]; }
    }
    forall i, j |
      0 <= i < j < |s'.mail.log| && s'.mail.log[i].source == s'.mail.log[j].source
      && IsSessionTraffic(s'.mail.log[i].envelope.kind) && IsSessionTraffic(s'.mail.log[j].envelope.kind)
      ensures s'.mail.log[i].index < s'.mail.log[j].index
    {
      assert i < |s.mail.log|;
      assert s'.mail.log[i] == s.mail.log[i];
      if j < |s.mail.log| { assert s'.mail.log[j] == s.mail.log[j]; }
    }
  }

  /** Stored sessions stay created ones. */
  ghost predicate SessionsCreated(s: State) {
    forall sid :: sid in s.tables.sessions ==>
      sid in s.created && SameSession(s.tables.sessions[sid], s.created[sid].session)
  }

  ghost predicate OneEach(s: State) {
    && (forall x, y :: x in s.created && y in s.created && x != y ==>
          s.created[x].source != s.created[y].source || s.created[x].index != s.created[y].index)
    && (forall x, y :: x in s.created && y in s.created && x != y && s.created[x].consumed.Some? ==>
          s.created[x].consumed != s.created[y].consumed)
  }

  lemma OneEachGrows(s: State, s': State, a: AgentId)
    requires Grows(s, s') && NewCreations(s, s', a) && OneEach(s)
    requires forall x, y :: x in s'.created && y in s'.created && x !in s.created && y !in s.created ==> x == y
    requires a in s.agents && s.agents[a].pc.CnfCreate? ==> NoneMadeYet(s, a) && UnusedRequest(s, s.agents[a].pc.consumed)
    ensures OneEach(s')
  {
  }

  lemma CreationsGrow(s: State, s': State)
    requires Grows(s, s')
    requires forall sid :: sid in s.created ==> CreationOk(s, sid)
    requires forall sid :: sid in s'.created && sid !in s.created ==> CreationOk(s', sid)
    ensures forall sid :: sid in s'.created ==> CreationOk(s', sid)
  {
    forall sid | sid in s'.created ensures CreationOk(s', sid) {
      if sid in s.created { CreationGrows(s, s', sid); }
    }
  }

  lemma CreatePcFacts(s: State, a: AgentId)
    requires a in s.agents && PcOk(s, a, s.agents[a].pc) == true
    ensures s.agents[a].pc.CnfCreate? ==> NoneMadeYet(s, a) && UnusedRequest(s, s.agents[a].pc.consumed)
  {
  }

  lemma NotSeatedYet(s: State, b: AgentId)
    requires b in s.agents && PcOk(s, b, Registering) == true
    ensures (s.agents[b].id, b) !in s.seated
  {
  }

  lemma PcsGrow(s: State, s': State, a: AgentId)
    requires PcsOk(s) && LocalStep(s, s', a)
    requires PcOk(s', a, s'.agents[a].pc) == true
    requires forall b :: b in s.agents && b != a ==>
               NoShared(s'.agents[a].pc, s.agents[b].pc) && NoShared(s.agents[b].pc, s'.agents[a].pc)
    ensures PcsOk(s')
  {
    forall b | b in s'.agents && b != a ensures PcOk(s', b, s'.agents[b].pc) {
      NewMailIsQuiet(s, s', a, b);
      if s.agents[b].pc.Registering? { NotSeatedYet(s, b); }
      PcGrows(s, s', a, b, s.agents[b].pc);
    }
  }

  lemma CreatedGrows(s: State, s': State, a: AgentId)
    requires CreatedOk(s) && LocalStep(s, s', a) && SessionsCreated(s')
    requires forall sid :: sid in s'.created && sid !in s.created ==> CreationOk(s', sid)
    requires forall x, y :: x in s'.created && y in s'.created && x !in s.created && y !in s.created ==> x == y
    requires a in s.agents ==> PcOk(s, a, s.agents[a].pc) == true
    ensures CreatedOk(s')
  {
    CreationsGrow(s, s');
    if a in s.agents { CreatePcFacts(s, a); }
    OneEachGrows(s, s', a);
  }

  /** The new facts a local step has to bring. */
  ghost predicate StepReady(s: State, s': State, a: AgentId) {
    LocalStep(s, s', a) && TablesReady(s') && CreationsReady(s, s') && PositionReady(s, s', a)
  }

  ghost predicate TablesReady(s': State) {
    TablesOk(s') && RequestsOk(s') && BoxesOk(s'.mail) && SessionsCreated(s')
  }

  ghost predicate CreationsReady(s: State, s': State) {
    && (forall sid :: sid in s'.created && sid !in s.created ==> CreationOk(s', sid))
    && (forall x, y :: x in s'.created && y in s'.created && x !in s.created && y !in s.created ==> x == y)
  }

  ghost predicate PositionReady(s: State, s': State, a: AgentId) {
    && a in s'.agents && PcOk(s', a, s'.agents[a].pc)
    && (forall b :: b in s.agents && b != a ==>
          NoShared(s'.agents[a].pc, s.agents[b].pc) && NoShared(s.agents[b].pc, s'.agents[a].pc))
  }

  /** A local step keeps the invariant once its own new facts are checked. */
  lemma Assemble(s: State, s': State, a: AgentId)
    requires Inv(s) == true && StepReady(s, s', a) == true
    ensures Inv(s') == true
  {
    LogGrows(s, s', a);
    ReadyOnceGrows(s, s', a);
    InOrderGrows(s, s', a);
    CreatedGrows(s, s', a);
    PcsGrow(s, s', a);
  }

  // ------------------------------------------------------- what one step may do

  /** `x` is admitted in this step: it was registering, the relay was not full,
      and now it has the seat. */
  predicate Admits(s: State, s': State, x: AgentId) {
    && x in s.agents && x in s'.agents && s.agents[x].pc.Registering? && !s'.agents[x].pc.Registering?
    && !Full(s.tables, s.cfg.maxClients)
    && Seated(s', s.agents[x].id, x)
  }

  /** The device id `id` belongs to connection `x`. */
  predicate Seated(s: State, id: string, x: AgentId) {
    id in s.tables.clients && s.tables.clients[id] == x
  }

  /** `x` is torn down in this step. */
  predicate Falls(s: State, s': State, x: AgentId) {
    x in s.agents && x in s'.agents && s.agents[x].phase != Torn && s'.agents[x].phase == Torn
  }

  /** A device id changes hands only by an admission, and is given up only when
      its holder is torn down. */
  ghost predicate SeatStep(s: State, s': State) {
    && (forall id :: id in s'.tables.clients && !(id in s.tables.clients && s.tables.clients[id] == s'.tables.clients[id])
          ==> Admits(s, s', s'.tables.clients[id]))
    && (forall id :: id in s.tables.clients && id !in s'.tables.clients ==> Falls(s, s', s.tables.clients[id]))
    && (forall p :: p in s'.seated && p !in s.seated ==> Listed(s', p.0, p.1))
  }

  /** The relay lists connection `x`, a device or a visitor, under `id`. */
  predicate Listed(s: State, id: string, x: AgentId) {
    Seated(s, id, x) || (id in s.tables.webPeers && s.tables.webPeers[id] == x)
  }

  /** Tear-downs do to the tables what `TornTables` says, and nobody arrives torn. */
  ghost predicate FallStep(s: State, s': State) {
    && (forall x :: Falls(s, s', x) ==> exists now :: s'.tables == TornTables(s, x, now))
    && (forall x :: x in s'.agents && x !in s.agents ==> s'.agents[x].phase != Torn)
  }

  /** Sessions end together with the notices to their endpoints. */
  ghost predicate Ends(s: State, s': State, a: AgentId, order: seq<string>, reason: string) {
    && a in s.agents
    && s'.tables.sessions.Keys <= s.tables.sessions.Keys
    && Enumerates(order, s.tables.sessions.Keys - s'.tables.sessions.Keys)
    && s'.mail.log == s.mail.log +
         Addressed(AllCloseNotices(s'.tables, s.tables.sessions, order, reason), a, |s.agents[a].inbox|)
  }

  ghost predicate EndsNothing(s: State, s': State) {
    && s.tables.sessions.Keys <= s'.tables.sessions.Keys
    && s.mail.log <= s'.mail.log
    && (forall i :: |s.mail.log| <= i < |s'.mail.log| ==> s'.mail.log[i].envelope.kind != SessionClose)
  }

  /** A new session is stored; stored ones go as `Ends` says. */
  ghost predicate EndStep(s: State, s': State) {
    && (forall sid :: sid in s'.created && sid !in s.created ==> sid in s'.tables.sessions)
    && (EndsNothing(s, s') || exists a, order, reason :: Ends(s, s', a, order, reason))
  }

  /** What every step achieves: the invariant again, and only lawful changes. */
  ghost predicate Keeps(s: State, s': State) {
    Inv(s') && Grows(s, s') && SeatStep(s, s') && FallStep(s, s') && EndStep(s, s')
  }
}
