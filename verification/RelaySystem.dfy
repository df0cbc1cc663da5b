/** The relay as it really runs: many connections, each with a reader that takes
    one message at a time, whose handlers interleave at the granularity of the
    mutex.  A handler keeps what it looked up (sessions, connections) after it
    has released the mutex; that is what the constructors of `Pc` carry.

    Hypotheses built into `Enabled`: session ids, share tokens and visitor ids
    are fresh; no device uses the id of a visitor; and a connection does not
    register again once it has a device id. */
module RelaySystem {
  import opened Protocol
  import opened Registry
  import PendingMap
  import WebShares
  import AuthCode

  type AgentId = nat
  type RelayTables = Tables<AgentId, AgentId>

  const QUEUE_CAPACITY := 128
  const VISITOR_NAME := "Web visitor"

  datatype Config = Config(maxClients: int, sharedToken: string)

  datatype Phase = Open | Closing | Torn

  /** What a handler does once an envelope has been offered to a queue. */
  datatype Next =
    | Finish                            // the outcome is ignored
    | Report                            // a refusal becomes an error reply
    | ThenOwn(own: Envelope)            // in any case, go on to queue `own` for oneself
    | ThenOwnIfSent(status: Envelope)   // only if it was accepted

  /** Where the handler of a connection stands: the section it will run next. */
  datatype Pc =
    | Idle
    | Registering
    | ClosingOther(other: AgentId)
    | ReqLookup(request: Payload)
    | ReqCheck(target: AgentId, request: Payload)
    | ReqStore(target: AgentId, request: Payload)
    | CnfClient(peerId: string, confirm: Payload)
    | CnfWeb(peerId: string, confirm: Payload, client: Option<AgentId>)
    | CnfDecline(peerId: string, confirm: Payload)
    | CnfConsume(peerId: string, confirm: Payload, peer: AgentId)
    | CnfCreate(peerId: string, confirm: Payload, peer: AgentId, consumed: Option<nat>)
    | Route(envelope: Envelope, next: Next)
    | RouteWeb(envelope: Envelope, next: Next)
    | Offer(target: AgentId, envelope: Envelope, next: Next)
    | FwdGuard(envelope: Envelope)
    | FwdRead(envelope: Envelope)
    | FwdClient(envelope: Envelope)
    | FwdWeb(envelope: Envelope)
    | FwdTouch(target: AgentId, envelope: Envelope)
    | CloseOne(sid: string)
    | ShareCreate(spec: Payload)
    | ShareList
    | ShareRevoke(ref: Payload)
    | WebCheck
    | WebTarget
    | WebJoin(target: AgentId)
    | WebStore(target: AgentId)

  /** A connection.  `id` is empty until a device has registered; visitors have
      theirs from the start.  `inbox` is every message its reader has taken. */
  datatype Agent = Agent(
    web: bool, id: string, name: string, role: string, phase: Phase,
    inbox: seq<Envelope>, pc: Pc,
    shareToken: string, controlled: string, shareMode: string)

  /** An envelope offered to the send queue of `to` by the handler or the
      tear-down of `source`, which had taken `index` messages by then. */
  datatype Sent = Sent(to: AgentId, envelope: Envelope, source: AgentId, index: nat)

  /** A send queue, by positions in the log: everything it ever accepted, of
      which the write loop has taken the first `written`. */
  datatype Box = Box(picked: seq<nat>, written: nat)

  datatype Mail = Mail(log: seq<Sent>, boxes: map<AgentId, Box>)

  /** History of one session: the confirm that made it, executed by `source` as its
      message number `index`, and the request it consumed. */
  datatype Creation = Creation(
    session: Session, source: AgentId, index: nat, confirm: Payload, peer: AgentId, consumed: Option<nat>)

  datatype Stored = Stored(source: AgentId, index: nat, request: PendingRequest)

  datatype State = State(
    cfg: Config,
    tables: RelayTables,
    agents: map<AgentId, Agent>,
    codes: map<AgentId, AuthCode.Slot>,
    mail: Mail,
    // history only
    created: map<string, Creation>,
    requests: seq<Stored>,
    live: map<string, nat>,
    taken: set<nat>,
    seated: set<(string, AgentId)>)   // every id and connection the relay ever listed

  function Initial(cfg: Config): State {
    State(cfg, Empty(), map[], map[], Mail([], map[]), map[], [], map[], {}, {})
  }

  // --------------------------------------------------------------- send queues

  function BoxOf(mail: Mail, x: AgentId): Box {
    if x in mail.boxes then mail.boxes[x] else Box([], 0)
  }

  predicate HasRoom(box: Box) {
    |box.picked| - box.written < QUEUE_CAPACITY
  }

  /** A queue with room of an open connection accepts; a full queue refuses; in
      between, `select` may take either ready case, and `coins` decides. */
  predicate Accepts(s: map<AgentId, Agent>, mail: Mail, x: AgentId, coins: set<nat>) {
    HasRoom(BoxOf(mail, x)) && ((x in s && s[x].phase == Open) || |mail.log| in coins)
  }

  function Post(s: map<AgentId, Agent>, mail: Mail, sent: Sent, coins: set<nat>): Mail {
    var box := BoxOf(mail, sent.to);
    Mail(mail.log + [sent],
         if Accepts(s, mail, sent.to, coins)
         then mail.boxes[sent.to := box.(picked := box.picked + [|mail.log|])]
         else mail.boxes)
  }

  function PostAll(s: map<AgentId, Agent>, mail: Mail, all: seq<Sent>, coins: set<nat>): Mail {
    if all == [] then mail
    else Post(s, PostAll(s, mail, all[..|all| - 1], coins), all[|all| - 1], coins)
  }

  function AgentOf(recipient: Recipient<AgentId, AgentId>): AgentId {
    match recipient
    case Device(c) => c
    case Visitor(p) => p
  }

  function Addressed(notices: seq<Notice<AgentId, AgentId>>, source: AgentId, index: nat): seq<Sent> {
    seq(|notices|, i requires 0 <= i < |notices| =>
      Sent(AgentOf(notices[i].recipient), notices[i].envelope, source, index))
  }

  // ------------------------------------------------------------------ envelopes

  function ErrorEnvelope(to: string): Envelope {
    Envelope(ErrorReply, "", RELAY, to, Note("message_failed"))
  }

  function RequestEnvelope(msg: Envelope, from: string, request: Payload, name: string, role: string): Envelope
    requires request.Request?
  {
    var mode := NormalizeMode(request.mode);
    msg.(from := from, to := request.target,
         payload := Request(request.target, mode, "", name, role, AllowsInput(mode)))
  }

  function VisitorRequest(id: string, controlled: string, mode: string): Envelope {
    Envelope(SessionRequest, "", id, controlled,
             Request(controlled, mode, "", VISITOR_NAME, ROLE_CONTROLLER, AllowsInput(mode)))
  }

  function ReadyToController(session: Session, peerName: string): Envelope {
    Envelope(SessionReady, session.id, RELAY, session.controllerId,
             Ready(session.id, session.controlledId, peerName, session.mode, session.inputAllowed,
                   ROLE_CONTROLLER, false))
  }

  function ReadyToControlled(session: Session, peerId: string, peerName: string): Envelope {
    Envelope(SessionReady, session.id, RELAY, session.controlledId,
             Ready(session.id, peerId, peerName, session.mode, session.inputAllowed,
                   ROLE_CONTROLLED, true))
  }

  /** Whom a confirm answers: `to`, or `from` when `to` is missing. */
  function ConfirmPeer(msg: Envelope): string {
    if msg.to == "" then msg.from else msg.to
  }

  function Stamped(msg: Envelope, from: string, to: string): Envelope {
    msg.(from := from, to := to)
  }

  // ------------------------------------------------------------- handler entry

  function Goto(s: State, a: AgentId, pc: Pc): State
    requires a in s.agents
  {
    s.(agents := s.agents[a := s.agents[a].(pc := pc)])
  }

  function Failing(a: AgentId, agent: Agent): Pc {
    Offer(a, ErrorEnvelope(agent.id), Finish)
  }

  /** The part of a handler before its first shared section: dispatch on the
      message kind, then checks on the message and the caller's own fields. */
  function Entry(cfg: Config, a: AgentId, agent: Agent, msg: Envelope): Pc {
    if agent.web then VisitorEntry(a, agent, msg) else DeviceEntry(cfg, a, agent, msg)
  }

  function VisitorEntry(a: AgentId, agent: Agent, msg: Envelope): Pc {
    match msg.kind
    case InputMouse | InputKeyboard | StreamControl => FwdGuard(msg)
    case SessionClose => if msg.sessionId == "" then Failing(a, agent) else CloseOne(msg.sessionId)
    case HeartbeatPing =>
      if msg.payload.Malformed? then Failing(a, agent)
      else Offer(a, Envelope(HeartbeatPong, "", RELAY, agent.id, msg.payload), Report)
    case _ => Failing(a, agent)
  }

  function DeviceEntry(cfg: Config, a: AgentId, agent: Agent, msg: Envelope): Pc {
    match msg.kind
    case DeviceRegister =>
      if msg.payload.Registration? && msg.payload.deviceId != "" && ValidToken(cfg, msg.payload.token)
      then Registering else Failing(a, agent)
    case StreamFrame | TelemetryStats => FwdRead(msg)
    case StreamControl | InputMouse | InputKeyboard => FwdGuard(msg)
    case SessionClose => if msg.sessionId == "" then Failing(a, agent) else CloseOne(msg.sessionId)
    case HeartbeatPing => if msg.payload.Malformed? then Failing(a, agent) else Idle
    case HeartbeatPong => Idle
    case _ => if agent.id == "" then Failing(a, agent) else RegisteredEntry(a, agent, msg)
  }

  /** Messages that only a registered device may send. */
  function RegisteredEntry(a: AgentId, agent: Agent, msg: Envelope): Pc {
    match msg.kind
    case AuthCodePublish =>
      if msg.payload.AuthCode? && AuthCode.IsSixDigits(msg.payload.code) then Idle else Failing(a, agent)
    case WebShareCreate => if msg.payload.ShareSpec? then ShareCreate(msg.payload) else Failing(a, agent)
    case WebShareList => ShareList
    case WebShareRevoke =>
      if msg.payload.ShareRef? && (msg.payload.shareId != "" || msg.payload.shareToken != "")
      then ShareRevoke(msg.payload) else Failing(a, agent)
    case SessionRequest =>
      if msg.payload.Request? && msg.payload.target != "" then ReqLookup(msg.payload) else Failing(a, agent)
    case SessionConfirm =>
      if msg.payload.Confirm? then CnfClient(ConfirmPeer(msg), msg.payload) else Failing(a, agent)
    case _ => Failing(a, agent)
  }

  predicate ValidToken(cfg: Config, token: string) {
    cfg.sharedToken == "" || token == cfg.sharedToken
  }

  function Receive(s: State, a: AgentId, msg: Envelope, now: int): State
    requires a in s.agents
  {
    var agent := s.agents[a];
    var pc := Entry(s.cfg, a, agent, msg);
    var named := if pc.Registering? && msg.payload.Registration? then
        agent.(id := msg.payload.deviceId, name := msg.payload.deviceName,
               role := if msg.payload.role == "" then ROLE_PEER else msg.payload.role)
      else agent;
    var published := !agent.web && msg.kind == AuthCodePublish && pc.Idle? && msg.payload.AuthCode?;
    s.(agents := s.agents[a := named.(pc := pc, inbox := agent.inbox + [msg])],
       codes := if published
                then s.codes[a := AuthCode.Publish(msg.payload.code, msg.payload.codeTtlMillis, now)]
                else s.codes)
  }

  // -------------------------------------------------------------- one section

  /** Everything a section is told from outside: the clock, fresh names, the
      link a revoke happens to meet first, and how racing `select`s fall. */
  datatype Choice = Choice(now: int, freshId: string, freshToken: string, picked: string, coins: set<nat>)

  function CodeOf(s: State, x: AgentId): AuthCode.Slot {
    if x in s.codes then s.codes[x] else AuthCode.EMPTY
  }

  /** Where the handler goes on once an envelope was taken by a queue, or was not. */
  function AfterOffer(a: AgentId, agent: Agent, next: Next, ok: bool): Pc {
    match next
    case Finish => Idle
    case Report => if ok then Idle else Failing(a, agent)
    case ThenOwn(own) => Offer(a, own, Report)
    case ThenOwnIfSent(own) => if ok then Offer(a, own, Finish) else Failing(a, agent)
  }

  function Offered(s: State, a: AgentId, x: AgentId, envelope: Envelope, next: Next, coins: set<nat>): State
    requires a in s.agents
  {
    var agent := s.agents[a];
    Goto(s.(mail := Post(s.agents, s.mail, Sent(x, envelope, a, |agent.inbox|), coins)), a,
         AfterOffer(a, agent, next, Accepts(s.agents, s.mail, x, coins)))
  }

  /** `sendToPeer` found nobody. */
  function Undelivered(a: AgentId, agent: Agent, next: Next): Pc {
    match next
    case Finish => Idle
    case Report => Failing(a, agent)
    case ThenOwn(own) => Offer(a, own, Report)
    case ThenOwnIfSent(_) => Failing(a, agent)
  }

  /** The store of a pending request, with its history. */
  function Storing(s: State, a: AgentId, controller: string, controlled: string, mode: string, now: int): State
    requires a in s.agents
  {
    var key := PendingMap.Key(controller, controlled);
    var pending := PendingMap.Store(s.tables.pending, controller, controlled, mode, now);
    s.(tables := s.tables.(pending := pending),
       requests := s.requests + [Stored(a, |s.agents[a].inbox|, pending[key])],
       live := s.live[key := |s.requests|])
  }

  function Consuming(s: State, controller: string, controlled: string): State {
    var key := PendingMap.Key(controller, controlled);
    s.(tables := s.tables.(pending := PendingMap.Remove(s.tables.pending, controller, controlled)),
       taken := if key in s.live then s.taken + {s.live[key]} else s.taken,
       live := s.live - {key})
  }

  function Consumed(s: State, controller: string, controlled: string): Option<nat> {
    var key := PendingMap.Key(controller, controlled);
    if key in s.live then Some(s.live[key]) else None
  }

  /** The mode of a new session: that of the consumed request, if any. */
  function AgreedMode(s: State, confirm: Payload, consumed: Option<nat>): string
    requires confirm.Confirm?
  {
    if consumed.Some? && consumed.value < |s.requests| then s.requests[consumed.value].request.mode
    else NormalizeMode(confirm.acceptedMode)
  }

  function AgreedSession(s: State, a: AgentId, pc: Pc, sid: string, now: int): Session
    requires a in s.agents && pc.CnfCreate? && pc.confirm.Confirm?
  {
    var mode := AgreedMode(s, pc.confirm, pc.consumed);
    NewSession(sid, pc.peerId, s.agents[a].id, mode, pc.confirm.confirmInput && AllowsInput(mode), now)
  }

  function Creating(s: State, a: AgentId, pc: Pc, c: Choice): State
    requires a in s.agents && pc.CnfCreate? && pc.confirm.Confirm? && pc.peer in s.agents
  {
    var agent := s.agents[a];
    if !CanCreate(s.tables, pc.peerId, agent.id) then Goto(s, a, Failing(a, agent))
    else
      var session := AgreedSession(s, a, pc, c.freshId, c.now);
      var peer := s.agents[pc.peer];
      var made := s.(
        tables := AddSession(s.tables, session),
        created := s.created[session.id := Creation(session, a, |agent.inbox|, pc.confirm, pc.peer, pc.consumed)]);
      Goto(made, a, Route(ReadyToController(session, agent.name),
                          ThenOwn(ReadyToControlled(session, peer.id, peer.name))))
  }

  function CloseReason(agent: Agent): string {
    if agent.web then "closed by web peer" else "closed by peer"
  }

  function TearDownReason(agent: Agent): string {
    if agent.web then "web peer disconnected" else "peer disconnected"
  }

  function Removing(s: State, a: AgentId, sid: string, reason: string, coins: set<nat>): State
    requires a in s.agents
  {
    if sid !in s.tables.sessions then Goto(s, a, Idle)
    else
      var notices := CloseNotices(s.tables, s.tables.sessions[sid], reason);
      var told := PostAll(s.agents, s.mail, Addressed(notices, a, |s.agents[a].inbox|), coins);
      Goto(s.(tables := RemoveSession(s.tables, sid), mail := told), a, Idle)
  }

  /** Sections that only read the tables. */
  predicate IsLookup(pc: Pc) {
    || pc.ClosingOther? || pc.ReqLookup? || pc.CnfClient? || pc.CnfWeb? || pc.Route? || pc.RouteWeb?
    || pc.FwdGuard? || pc.FwdRead? || pc.FwdClient? || pc.FwdWeb? || pc.WebTarget?
  }

  function FoundTarget(t: RelayTables, a: AgentId, agent: Agent, request: Payload): Pc {
    if request.Request? && request.target in t.clients
    then ReqCheck(t.clients[request.target], request) else Failing(a, agent)
  }

  function FoundClient(t: RelayTables, peerId: string, confirm: Payload): Pc {
    CnfWeb(peerId, confirm, if peerId in t.clients then Some(t.clients[peerId]) else None)
  }

  function FoundPeer(t: RelayTables, a: AgentId, agent: Agent, peerId: string, confirm: Payload,
                     client: Option<AgentId>): Pc {
    if client == None && peerId !in t.webPeers then Failing(a, agent)
    else if confirm.Confirm? && !confirm.accepted then CnfDecline(peerId, confirm)
    else CnfConsume(peerId, confirm, if client.Some? then client.value else t.webPeers[peerId])
  }

  function Routed(t: RelayTables, envelope: Envelope, next: Next): Pc {
    if envelope.to in t.clients then Offer(t.clients[envelope.to], envelope, next) else RouteWeb(envelope, next)
  }

  function RoutedWeb(t: RelayTables, a: AgentId, agent: Agent, envelope: Envelope, next: Next): Pc {
    if envelope.to in t.webPeers then Offer(t.webPeers[envelope.to], envelope, next)
    else Undelivered(a, agent, next)
  }

  /** Input and stream control are checked against the session first; a
      visitor's go straight to the controlled device. */
  function Guarded(t: RelayTables, a: AgentId, agent: Agent, msg: Envelope): Pc {
    if msg.sessionId !in t.sessions then Failing(a, agent)
    else
      var session := t.sessions[msg.sessionId];
      if IsInput(msg.kind) && !session.inputAllowed then Failing(a, agent)
      else if agent.id != session.controllerId then Failing(a, agent)
      else if agent.web then FwdClient(Stamped(msg, agent.id, session.controlledId))
      else FwdRead(msg)
  }

  /** The peer of the sender in the session the message names. */
  function Directed(t: RelayTables, a: AgentId, agent: Agent, msg: Envelope): Pc {
    if msg.sessionId !in t.sessions then Failing(a, agent)
    else
      var session := t.sessions[msg.sessionId];
      if agent.id == session.controllerId then FwdClient(Stamped(msg, agent.id, session.controlledId))
      else if agent.id == session.controlledId then FwdClient(Stamped(msg, agent.id, session.controllerId))
      else Failing(a, agent)
  }

  function Located(t: RelayTables, a: AgentId, agent: Agent, msg: Envelope): Pc {
    if msg.to in t.clients then FwdTouch(t.clients[msg.to], msg)
    else if agent.web then Failing(a, agent) else FwdWeb(msg)
  }

  function LocatedWeb(t: RelayTables, a: AgentId, agent: Agent, msg: Envelope): Pc {
    if msg.to in t.webPeers then FwdTouch(t.webPeers[msg.to], msg) else Failing(a, agent)
  }

  function FoundControlled(t: RelayTables, a: AgentId, agent: Agent): Pc {
    if agent.controlled in t.clients then WebJoin(t.clients[agent.controlled]) else Failing(a, agent)
  }

  /** Where a lookup section leads: what it found is carried along. */
  function Looked(t: RelayTables, a: AgentId, agent: Agent): Pc {
    match agent.pc
    case ClosingOther(_) => Idle
    case ReqLookup(request) => FoundTarget(t, a, agent, request)
    case CnfClient(peerId, confirm) => FoundClient(t, peerId, confirm)
    case CnfWeb(peerId, confirm, client) => FoundPeer(t, a, agent, peerId, confirm, client)
    case Route(envelope, next) => Routed(t, envelope, next)
    case RouteWeb(envelope, next) => RoutedWeb(t, a, agent, envelope, next)
    case FwdGuard(msg) => Guarded(t, a, agent, msg)
    case FwdRead(msg) => Directed(t, a, agent, msg)
    case FwdClient(msg) => Located(t, a, agent, msg)
    case FwdWeb(msg) => LocatedWeb(t, a, agent, msg)
    case WebTarget => FoundControlled(t, a, agent)
    case _ => agent.pc
  }

  function Admitting(s: State, a: AgentId): State
    requires a in s.agents
  {
    var agent := s.agents[a];
    if Full(s.tables, s.cfg.maxClients) then Goto(s, a, Failing(a, agent))
    else
      var displaced := Displaced(s.tables, agent.id, a);
      Goto(s.(tables := Register(s.tables, agent.id, a), seated := s.seated + {(agent.id, a)}), a,
           if displaced.Some? then ClosingOther(displaced.value) else Idle)
  }

  function Checking(s: State, a: AgentId, x: AgentId, request: Payload, now: int): State
    requires a in s.agents && request.Request?
  {
    var slot := CodeOf(s, x);
    Goto(s.(codes := s.codes[x := AuthCode.AfterJudge(slot, request.authCode, now)]), a,
         if AuthCode.Judge(slot, request.authCode, now).Passes()
         then ReqStore(x, request) else Failing(a, s.agents[a]))
  }

  /** The share sections: one operation on the table of links, then an answer. */
  function ShareOp(agent: Agent, c: Choice): WebShares.Op {
    match agent.pc
    case ShareCreate(spec) =>
      if spec.ShareSpec? then
        WebShares.CreateOp(c.freshId, c.freshToken, agent.id, agent.name, spec.shareMode, spec.shareLabel,
                           spec.shareTtlMillis, c.now)
      else WebShares.ListOp(agent.id, c.now)
    case ShareRevoke(ref) =>
      if ref.ShareRef? then WebShares.RevokeOp(agent.id, ref.shareId, ref.shareToken, c.picked, c.now)
      else WebShares.ListOp(agent.id, c.now)
    case WebCheck => WebShares.GetOp(agent.shareToken, c.now)
    case _ => WebShares.ListOp(agent.id, c.now)
  }

  function Sharing(s: State, a: AgentId, c: Choice): State
    requires a in s.agents
  {
    var agent := s.agents[a];
    var shares := s.tables.shares;
    var refused := Failing(a, agent);
    Goto(s.(tables := s.tables.(shares := WebShares.Apply(shares, ShareOp(agent, c)))), a,
         match agent.pc
         case ShareRevoke(ref) =>
           if ref.ShareRef? && c.picked in shares
              && WebShares.Revocable(shares[c.picked], agent.id, ref.shareId, ref.shareToken)
           then Idle else refused
         case WebCheck =>
           if WebShares.Get(shares, agent.shareToken, c.now, s.tables.clients.Keys).Found? then WebTarget else refused
         case _ => Idle)
  }

  function StoringRequest(s: State, a: AgentId, x: AgentId, request: Payload, now: int): State
    requires a in s.agents && request.Request? && s.agents[a].inbox != []
  {
    var agent := s.agents[a];
    var msg := agent.inbox[|agent.inbox| - 1];
    Goto(Storing(s, a, agent.id, request.target, request.mode, now), a,
         Offer(x, RequestEnvelope(msg, agent.id, request, agent.name, agent.role), Report))
  }

  function StoringVisit(s: State, a: AgentId, x: AgentId, now: int): State
    requires a in s.agents
  {
    var agent := s.agents[a];
    Goto(Storing(s, a, agent.id, agent.controlled, agent.shareMode, now), a,
         Offer(x, VisitorRequest(agent.id, agent.controlled, agent.shareMode),
               ThenOwnIfSent(Envelope(WebShareStatus, "", RELAY, agent.id, Note("waiting")))))
  }

  function Joining(s: State, a: AgentId, x: AgentId): State
    requires a in s.agents
  {
    var id := s.agents[a].id;
    Goto(s.(tables := AddWebPeer(s.tables, id, a), seated := s.seated + {(id, a)}), a, WebStore(x))
  }

  function Declining(s: State, a: AgentId, peerId: string): State
    requires a in s.agents && s.agents[a].inbox != []
  {
    var agent := s.agents[a];
    Goto(Consuming(s, peerId, agent.id), a,
         Route(Stamped(agent.inbox[|agent.inbox| - 1], agent.id, peerId), Report))
  }

  function Accepting(s: State, a: AgentId, peerId: string, confirm: Payload, peer: AgentId): State
    requires a in s.agents
  {
    var id := s.agents[a].id;
    Goto(Consuming(s, peerId, id), a, CnfCreate(peerId, confirm, peer, Consumed(s, peerId, id)))
  }

  function Touching(s: State, a: AgentId, x: AgentId, msg: Envelope, now: int): State
    requires a in s.agents
  {
    Goto(s.(tables := Touch(s.tables, msg.sessionId, now)), a, Offer(x, msg, Report))
  }

  /** Runs the section at which the handler of `a` stands. */
  function Run(s: State, a: AgentId, c: Choice): State
    requires a in s.agents && Runnable(s, a, c)
  {
    var agent := s.agents[a];
    match agent.pc
    case Idle => s
    case Registering => Admitting(s, a)
    case ReqCheck(x, request) => Checking(s, a, x, request, c.now)
    case ReqStore(x, request) => StoringRequest(s, a, x, request, c.now)
    case CnfDecline(peerId, _) => Declining(s, a, peerId)
    case CnfConsume(peerId, confirm, peer) => Accepting(s, a, peerId, confirm, peer)
    case CnfCreate(_, _, _, _) => Creating(s, a, agent.pc, c)
    case Offer(x, envelope, next) => Offered(s, a, x, envelope, next, c.coins)
    case FwdTouch(x, msg) => Touching(s, a, x, msg, c.now)
    case CloseOne(sid) =>
      Removing(s, a, sid, CloseReason(agent), c.coins)
    case ShareCreate(_) => Sharing(s, a, c)
    case ShareList => Sharing(s, a, c)
    case ShareRevoke(_) => Sharing(s, a, c)
    case WebCheck => Sharing(s, a, c)
    case WebJoin(x) => Joining(s, a, x)
    case WebStore(x) => StoringVisit(s, a, x, c.now)
    case _ => Goto(s, a, Looked(s.tables, a, agent))
  }

  /** When the section may run, and what is fresh about its choices. */
  predicate Runnable(s: State, a: AgentId, c: Choice)
    requires a in s.agents
  {
    var agent := s.agents[a];
    match agent.pc
    case Idle => false
    case ClosingOther(other) => other in s.agents && s.agents[other].phase == Torn
    case ReqCheck(_, request) => request.Request?
    case ReqStore(_, request) => request.Request? && agent.inbox != []
    case CnfDecline(_, confirm) => agent.inbox != []
    case CnfCreate(_, confirm, peer, _) =>
      confirm.Confirm? && peer in s.agents && c.freshId !in s.created && c.freshId != ""
    case ShareCreate(spec) => spec.ShareSpec? && c.freshToken !in s.tables.shares && c.freshToken != ""
    case ShareRevoke(ref) =>
      ref.ShareRef? &&
      ((c.picked in s.tables.shares
        && WebShares.Revocable(s.tables.shares[c.picked], agent.id, ref.shareId, ref.shareToken))
       || !WebShares.AnyRevocable(s.tables.shares, agent.id, ref.shareId, ref.shareToken))
    case _ => true
  }

  // ------------------------------------------------------------------ tear-down

  /** The sessions a connection takes down with it. */
  function Ended(s: State, a: AgentId): set<string>
    requires a in s.agents
  {
    var agent := s.agents[a];
    if agent.id == "" && !agent.web then {} else SessionsOf(s.tables.sessions, agent.id)
  }

  function TornTables(s: State, a: AgentId, now: int): RelayTables
    requires a in s.agents
  {
    var agent := s.agents[a];
    if agent.web then UnregisterWebPeer(s.tables, agent.id, a) else Unregister(s.tables, agent.id, a, now)
  }

  function TearDown(s: State, a: AgentId, order: seq<string>, now: int, coins: set<nat>): State
    requires a in s.agents
    requires Enumerates(order, Ended(s, a))
  {
    var agent := s.agents[a];
    var tables := TornTables(s, a, now);
    var notices := AllCloseNotices(tables, s.tables.sessions, order, TearDownReason(agent));
    s.(tables := tables,
       live := map k | k in s.live && k in tables.pending :: s.live[k],
       mail := PostAll(s.agents, s.mail, Addressed(notices, a, |agent.inbox|), coins),
       agents := s.agents[a := agent.(phase := Torn)])
  }

  // -------------------------------------------------------------------- events

  datatype Event =
    | Connect(a: AgentId)
    | Visit(a: AgentId, id: string, token: string, now: int)
    | Recv(a: AgentId, msg: Envelope, now: int)
    | Proceed(a: AgentId, choice: Choice)
    | StartClose(a: AgentId)
    | FinishClose(a: AgentId, order: seq<string>, now: int, coins: set<nat>)
    | Write(a: AgentId)
    | Peek(token: string, now: int)   // a page or an upgrade looks a link up

  ghost predicate Enabled(s: State, e: Event) {
    match e
    case Connect(a) => a !in s.agents
    case Visit(a, id, token, now) =>
      && a !in s.agents && id != "" && (forall b :: b in s.agents ==> s.agents[b].id != id)
      && WebShares.Get(s.tables.shares, token, now, s.tables.clients.Keys).Found?
    case Recv(a, msg, _) =>
      && a in s.agents && s.agents[a].pc.Idle?
      && (!s.agents[a].web && msg.kind == DeviceRegister ==>
            && s.agents[a].id == ""
            && (msg.payload.Registration? ==>
                  forall b :: b in s.agents && s.agents[b].web ==> s.agents[b].id != msg.payload.deviceId))
    case Proceed(a, c) => a in s.agents && Runnable(s, a, c)
    case StartClose(a) => a in s.agents && s.agents[a].phase == Open
    case FinishClose(a, order, _, _) =>
      a in s.agents && s.agents[a].phase == Closing && Enumerates(order, Ended(s, a))
    case Write(a) => a in s.mail.boxes && s.mail.boxes[a].written < |s.mail.boxes[a].picked|
    case Peek(_, _) => true
  }

  ghost function Apply(s: State, e: Event): State
    requires Enabled(s, e)
  {
    match e
    case Connect(a) =>
      s.(agents := s.agents[a := Agent(false, "", "", "", Open, [], Idle, "", "", "")])
    case Visit(a, id, token, now) =>
      var share := s.tables.shares[token];
      s.(agents := s.agents[a := Agent(true, id, VISITOR_NAME, "", Open, [], WebCheck,
                                       token, share.controlledId, NormalizeMode(share.mode))])
    case Recv(a, msg, now) => Receive(s, a, msg, now)
    case Proceed(a, c) => Run(s, a, c)
    case StartClose(a) => s.(agents := s.agents[a := s.agents[a].(phase := Closing)])
    case FinishClose(a, order, now, coins) => TearDown(s, a, order, now, coins)
    case Write(a) =>
      var box := s.mail.boxes[a];
      s.(mail := s.mail.(boxes := s.mail.boxes[a := box.(written := box.written + 1)]))
    case Peek(token, now) => s.(tables := s.tables.(shares := WebShares.AfterGet(s.tables.shares, token, now)))
  }

  /** A run of the relay: one more state than events. */
  ghost predicate IsRun(cfg: Config, states: seq<State>, events: seq<Event>) {
    && |states| == |events| + 1
    && states[0] == Initial(cfg)
    && forall i :: 0 <= i < |events| ==> Enabled(states[i], events[i]) && states[i + 1] == Apply(states[i], events[i])
  }
}
