/** Clients and relay together.  Any number of connections belong to clients
    that follow `ClientRuntime`; all others may send anything at any time. */
module EndToEnd {
  import opened Protocol
  import opened RelaySystem
  import opened RelayInvariants
  import opened RelaySteps
  import opened RelayRuns
  import opened RelayMoves
  import opened RelayTheorems
  import CR = ClientRuntime

  /** A relay event leaves the identity and the messages of `b` alone, unless it
      is the reader of `b` taking a message. */
  lemma EventKeepsSelf(s: State, e: Event, b: AgentId)
    requires Enabled(s, e) && b in s.agents && !(e.Recv? && e.a == b)
    ensures var s' := Apply(s, e);
      b in s'.agents && s'.agents[b].id == s.agents[b].id && s'.agents[b].inbox == s.agents[b].inbox
      && s'.agents[b].web == s.agents[b].web
  {
    if e.Proceed? { RunMovesOnly(s, e.a, e.choice); }
  }

  lemma ReceiveSelf(s: State, a: AgentId, msg: Envelope, now: int)
    requires a in s.agents
    ensures var s' := Receive(s, a, msg, now);
      && a in s'.agents && s'.agents[a].inbox == s.agents[a].inbox + [msg] && s'.agents[a].web == s.agents[a].web
      && (s'.agents[a].id == s.agents[a].id
          || (!s.agents[a].web && msg.kind == DeviceRegister && msg.payload.Registration? && s'.agents[a].id == msg.payload.deviceId))
  {
  }

  // ----------------------------------------------------------------- the world

  /** Why an accepting answer was sent: the request that waited and the option; how
      long the relay's log was by then; and at which act of the client it was. */
  datatype Consent = Consent(pending: CR.Pending, enableInput: bool, logged: nat, at: nat)

  datatype Outgoing = Outgoing(envelope: Envelope, consent: Option<Consent>)

  /** A client on one connection: how many envelopes it has read off it, all it
      ever put on it, what it was when it dialled and all that ever happened to it
      since.  `line` is this connection and the ones before it from which it took
      over a waiting request. */
  datatype Runtime = Runtime(
    view: CR.View, read: nat, outbox: seq<Outgoing>, up: bool, first: CR.View, acts: seq<CR.Act>, line: set<AgentId>)

  datatype World = World(relay: State, runtimes: map<AgentId, Runtime>)

  /** Everything the relay wrote to connection `a`, in order. */
  function Incoming(s: State, a: AgentId): seq<nat>
  {
    var box := BoxOf(s.mail, a);
    if box.written <= |box.picked| then box.picked[..box.written] else []
  }

  datatype WorldEvent =
    | Relay(event: Event)
    | Dial(a: AgentId, deviceId: string, prior: Option<AgentId>)
    | Deliver(a: AgentId, trusted: bool, opts: CR.Options, writable: bool)
    | Approve(a: AgentId, opts: CR.Options, writable: bool)
    | Reject(a: AgentId, reason: string, writable: bool)
    | Say(a: AgentId, msg: Envelope)
    | Drop(a: AgentId)

  /** The relay takes from a client's connection what the client put on it; a
      client registers under its own id and answers requests only as
      `ClientRuntime` does; whatever else it says is up to its user. */
  ghost predicate Possible(w: World, e: WorldEvent) {
    match e
    case Relay(event) =>
      Enabled(w.relay, event) && (event.Recv? && event.a in w.runtimes ==> NextOut(w, event.a, event.msg))
    case Dial(a, deviceId, prior) =>
      && Enabled(w.relay, Connect(a)) && a !in w.runtimes
      && (prior.Some? ==> prior.value in w.runtimes && w.runtimes[prior.value].view.deviceId == deviceId)
    case Deliver(a, _, _, _) =>
      a in w.runtimes && w.runtimes[a].up && w.runtimes[a].read < |Incoming(w.relay, a)|
      && Incoming(w.relay, a)[w.runtimes[a].read] < |w.relay.mail.log|
    case Approve(a, _, _) => a in w.runtimes && w.runtimes[a].up
    case Reject(a, _, _) => a in w.runtimes && w.runtimes[a].up
    case Say(a, msg) =>
      && a in w.runtimes && msg.kind != SessionConfirm
      && (msg.kind == DeviceRegister && msg.payload.Registration? ==>
            msg.payload.deviceId == w.runtimes[a].view.deviceId)
    case Drop(a) => a in w.runtimes
  }

  predicate NextOut(w: World, a: AgentId, msg: Envelope) {
    && a in w.runtimes && a in w.relay.agents
    && var sent := |w.relay.agents[a].inbox|;
       sent < |w.runtimes[a].outbox| && w.runtimes[a].outbox[sent].envelope == msg
  }

  function Outgoings(sent: seq<Envelope>, consent: Consent): seq<Outgoing> {
    seq(|sent|, i requires 0 <= i < |sent| => Outgoing(sent[i], Some(consent)))
  }

  /** An outcome takes effect; the consent recorded is the request answered. */
  function After(r: Runtime, act: CR.Act, consent: Consent): Runtime {
    var out := CR.Do(r.view, act);
    r.(view := out.view, outbox := r.outbox + Outgoings(out.sent, consent), acts := r.acts + [act])
  }

  function Delivered(r: Runtime, msg: Envelope, trusted: bool, opts: CR.Options, writable: bool, logged: nat): Runtime {
    var asked := if msg.kind == SessionRequest && msg.payload.Request? then CR.Asked(r.view, msg, trusted) else r.view;
    After(r.(read := r.read + 1), CR.Got(msg, trusted, opts, writable), Consent(asked.pending, opts.enableInput, logged, |r.acts|))
  }

  function Dropped(r: Runtime): Runtime {
    r.(up := false, view := CR.Left(r.view), acts := r.acts + [CR.Disconnected])
  }

  /** The client that acts in `e`, as it is afterwards. */
  ghost function Acted(w: World, e: WorldEvent): Runtime
    requires Possible(w, e) && !e.Relay? && !e.Dial?
  {
    var r := w.runtimes[e.a];
    match e
    case Deliver(a, trusted, opts, writable) =>
      Delivered(r, w.relay.mail.log[Incoming(w.relay, a)[r.read]].envelope, trusted, opts, writable, |w.relay.mail.log|)
    case Approve(_, opts, writable) =>
      After(r, CR.Approved(opts, writable), Consent(r.view.pending, opts.enableInput, |w.relay.mail.log|, |r.acts|))
    case Reject(_, reason, writable) =>
      After(r, CR.Rejected(reason, writable), Consent(r.view.pending, false, |w.relay.mail.log|, |r.acts|))
    case Say(_, msg) => r.(outbox := r.outbox + [Outgoing(msg, None)])
    case Drop(_) => Dropped(r)
  }

  /** A client on a new connection; a waiting request outlives the one before. */
  function Fresh(w: World, a: AgentId, deviceId: string, prior: Option<AgentId>): Runtime
    requires prior.Some? ==> prior.value in w.runtimes
  {
    var pending := if prior.Some? then w.runtimes[prior.value].view.pending else CR.NO_PENDING;
    var line := if prior.Some? then w.runtimes[prior.value].line else {};
    var first := CR.View(deviceId, pending, CR.NO_SESSION);
    Runtime(first, 0, [], true, first, [], line + {a})
  }

  ghost function Happen(w: World, e: WorldEvent): World
    requires Possible(w, e)
  {
    match e
    case Relay(event) => w.(relay := RelaySystem.Apply(w.relay, event))
    case Dial(a, deviceId, prior) =>
      World(RelaySystem.Apply(w.relay, Connect(a)), w.runtimes[a := Fresh(w, a, deviceId, prior)])
    case _ => w.(runtimes := w.runtimes[e.a := Acted(w, e)])
  }

  ghost predicate IsWorldRun(cfg: Config, worlds: seq<World>, events: seq<WorldEvent>) {
    && |worlds| == |events| + 1
    && worlds[0] == World(Initial(cfg), map[])
    && forall i :: 0 <= i < |events| ==> Possible(worlds[i], events[i]) && worlds[i + 1] == Happen(worlds[i], events[i])
  }

  // ----------------------------------------------------------------- invariant

  predicate IsReadyFor(s: State, i: nat, a: AgentId) {
    && i < |s.mail.log| && s.mail.log[i].to == a
    && s.mail.log[i].envelope.kind == SessionReady && s.mail.log[i].envelope.payload.Ready?
  }

  /** The session on record at a client is one the relay announced to it. */
  predicate Records(session: CR.Joined, ready: Payload) {
    && ready.Ready?
    && session.id == ready.readySession && session.peerId == ready.peerId && session.peerName == ready.peerName
    && session.mode == ready.readyMode && session.localRole == ready.localRole && session.inputAllowed == ready.readyInput
    && (ready.localRole != "" ==> session.shouldSendView == ready.shouldSendView)
  }

  ghost predicate SessionKnown(s: State, a: AgentId, session: CR.Joined) {
    session == CR.NO_SESSION ||
    exists i: nat :: IsReadyFor(s, i, a) && Records(session, s.mail.log[i].envelope.payload)
  }

  /** Position `j` of the log is a request of `pending.peerId` to `deviceId`
      that asked for just what is on record. */
  predicate Asks(s: State, j: nat, deviceId: string, pending: CR.Pending) {
    && j < |s.mail.log|
    && var e := s.mail.log[j].envelope;
    && e.kind == SessionRequest && e.from == pending.peerId && e.to == deviceId && e.payload.Request?
    && NormalizeMode(e.payload.mode) == pending.mode && e.payload.inputRequested == pending.input
    && pending.input == AllowsInput(pending.mode)
  }

  /** Among the first `upto` envelopes there is such a request, offered to one of the
      connections `line`. */
  ghost predicate PendingKnown(s: State, deviceId: string, line: set<AgentId>, upto: nat, pending: CR.Pending) {
    pending.peerId == "" || exists j: nat :: j < upto && Asks(s, j, deviceId, pending) && s.mail.log[j].to in line
  }

  ghost predicate SpokenOk(s: State, deviceId: string, line: set<AgentId>, o: Outgoing) {
    && (o.envelope.kind == DeviceRegister && o.envelope.payload.Registration? ==>
          o.envelope.payload.deviceId == deviceId)
    && (o.envelope.kind == SessionConfirm && o.envelope.payload.Confirm? && o.envelope.payload.accepted ==>
          && o.consent.Some?
          && var c := o.consent.value;
          && o.envelope.to == c.pending.peerId != ""
          && o.envelope.payload == Confirm(true, "", c.pending.mode, c.pending.input && c.enableInput)
          && PendingKnown(s, deviceId, line, c.logged, c.pending))
  }

  ghost predicate OutboxOk(s: State, a: AgentId, r: Runtime) {
    && a in s.agents
    && |s.agents[a].inbox| <= |r.outbox|
    && (forall i :: 0 <= i < |s.agents[a].inbox| ==> s.agents[a].inbox[i] == r.outbox[i].envelope)
    && (forall i :: 0 <= i < |r.outbox| ==> SpokenOk(s, r.view.deviceId, r.line, r.outbox[i]))
  }

  ghost predicate RuntimeOk(s: State, a: AgentId, r: Runtime) {
    && a in s.agents && !s.agents[a].web
    && (s.agents[a].id == "" || s.agents[a].id == r.view.deviceId)
    && a in r.line && SessionKnown(s, a, r.view.session)
    && PendingKnown(s, r.view.deviceId, r.line, |s.mail.log|, r.view.pending)
    && OutboxOk(s, a, r)
  }

  ghost predicate WorldInv(w: World) {
    Inv(w.relay) && forall a :: a in w.runtimes ==> RuntimeOk(w.relay, a, w.runtimes[a])
  }

  // ----------------------------------------------- the relay moves under a client

  lemma SessionStaysKnown(s: State, s': State, a: AgentId, session: CR.Joined)
    requires s.mail.log <= s'.mail.log && SessionKnown(s, a, session)
    ensures SessionKnown(s', a, session)
  {
    if session != CR.NO_SESSION {
      var i: nat :| IsReadyFor(s, i, a) && Records(session, s.mail.log[i].envelope.payload);
      assert s'.mail.log[i] == s.mail.log[i];
      assert IsReadyFor(s', i, a);
    }
  }

  lemma PendingStaysKnown(s: State, s': State, deviceId: string, line: set<AgentId>, upto: nat, upto': nat, pending: CR.Pending)
    requires s.mail.log <= s'.mail.log && PendingKnown(s, deviceId, line, upto, pending) && upto <= upto'
    ensures PendingKnown(s', deviceId, line, upto', pending)
  {
    if pending.peerId != "" {
      var j: nat :| j < upto && Asks(s, j, deviceId, pending) && s.mail.log[j].to in line;
      assert s'.mail.log[j] == s.mail.log[j];
      assert Asks(s', j, deviceId, pending);
    }
  }

  lemma SpokenStaysOk(s: State, s': State, deviceId: string, line: set<AgentId>, o: Outgoing)
    requires s.mail.log <= s'.mail.log && SpokenOk(s, deviceId, line, o)
    ensures SpokenOk(s', deviceId, line, o)
  {
    if o.consent.Some? {
      var c := o.consent.value;
      if PendingKnown(s, deviceId, line, c.logged, c.pending) {
        PendingStaysKnown(s, s', deviceId, line, c.logged, c.logged, c.pending);
      }
    }
  }

  /** What the relay's own steps owe a client: the log grows, and its inbox
      takes the next thing it said. */
  ghost predicate FairTo(s: State, s': State, a: AgentId, r: Runtime) {
    && s.mail.log <= s'.mail.log && a in s.agents && a in s'.agents && s'.agents[a].web == s.agents[a].web
    && (|| (s'.agents[a].inbox == s.agents[a].inbox && s'.agents[a].id == s.agents[a].id)
        || (&& |s.agents[a].inbox| < |r.outbox|
            && var msg := r.outbox[|s.agents[a].inbox|].envelope;
            && s'.agents[a].inbox == s.agents[a].inbox + [msg]
            && (s'.agents[a].id == s.agents[a].id
                || (msg.kind == DeviceRegister && msg.payload.Registration? && s'.agents[a].id == msg.payload.deviceId))))
  }

  lemma RelayKeepsRuntime(s: State, s': State, a: AgentId, r: Runtime)
    requires RuntimeOk(s, a, r) && FairTo(s, s', a, r)
    ensures RuntimeOk(s', a, r) == true
  {
    SessionStaysKnown(s, s', a, r.view.session);
    PendingStaysKnown(s, s', r.view.deviceId, r.line, |s.mail.log|, |s'.mail.log|, r.view.pending);
    forall i | 0 <= i < |r.outbox| ensures SpokenOk(s', r.view.deviceId, r.line, r.outbox[i]) {
      SpokenStaysOk(s, s', r.view.deviceId, r.line, r.outbox[i]);
    }
  }

  lemma RelayIsFair(w: World, event: Event, a: AgentId)
    requires Inv(w.relay) == true && Possible(w, Relay(event)) && a in w.runtimes && a in w.relay.agents
    ensures FairTo(w.relay, RelaySystem.Apply(w.relay, event), a, w.runtimes[a]) == true
  {
    StepGrowsLog(w.relay, event);
    if event.Recv? && event.a == a {
      ReceiveSelf(w.relay, a, event.msg, event.now);
    } else {
      EventKeepsSelf(w.relay, event, a);
    }
  }

  lemma StepGrowsLog(s: State, e: Event)
    requires Inv(s) == true && Enabled(s, e)
    ensures s.mail.log <= RelaySystem.Apply(s, e).mail.log
  {
    StepKeeps(s, e);
  }

  // ------------------------------------------------------------- a client moves

  lemma OutboxGrows(s: State, a: AgentId, r: Runtime, more: seq<Outgoing>)
    requires OutboxOk(s, a, r) && forall i :: 0 <= i < |more| ==> SpokenOk(s, r.view.deviceId, r.line, more[i])
    ensures OutboxOk(s, a, r.(outbox := r.outbox + more))
  {
  }

  /** An answer that goes out is covered by the consent recorded with it. */
  lemma ApprovalOk(s: State, view: CR.View, line: set<AgentId>, opts: CR.Options, writable: bool, at: nat, i: nat)
    requires PendingKnown(s, view.deviceId, line, |s.mail.log|, view.pending)
    requires i < |CR.Approve(view, opts, writable).sent|
    ensures var consent := Consent(view.pending, opts.enableInput, |s.mail.log|, at);
      SpokenOk(s, view.deviceId, line, Outgoings(CR.Approve(view, opts, writable).sent, consent)[i])
  {
  }

  lemma ApproveKeepsRuntime(s: State, a: AgentId, r: Runtime, opts: CR.Options, writable: bool)
    requires RuntimeOk(s, a, r)
    ensures var consent := Consent(r.view.pending, opts.enableInput, |s.mail.log|, |r.acts|);
      RuntimeOk(s, a, After(r, CR.Approved(opts, writable), consent)) == true
  {
    var out := CR.Approve(r.view, opts, writable);
    var more := Outgoings(out.sent, Consent(r.view.pending, opts.enableInput, |s.mail.log|, |r.acts|));
    forall i | 0 <= i < |more| ensures SpokenOk(s, r.view.deviceId, r.line, more[i]) {
      ApprovalOk(s, r.view, r.line, opts, writable, |r.acts|, i);
    }
    OutboxGrows(s, a, r, more);
  }

  lemma RejectKeepsRuntime(s: State, a: AgentId, r: Runtime, reason: string, writable: bool)
    requires RuntimeOk(s, a, r)
    ensures var consent := Consent(r.view.pending, false, |s.mail.log|, |r.acts|);
      RuntimeOk(s, a, After(r, CR.Rejected(reason, writable), consent)) == true
  {
    var more := Outgoings(CR.Reject(r.view, reason, writable).sent, Consent(r.view.pending, false, |s.mail.log|, |r.acts|));
    OutboxGrows(s, a, r, more);
  }

  /** A request the relay delivered is one on the log, addressed to this device. */
  lemma AskedKnown(s: State, a: AgentId, r: Runtime, j: nat, trusted: bool)
    requires RuntimeOk(s, a, r) && j < |s.mail.log| && s.mail.log[j].to == a && SentOk(s, s.mail.log[j])
    requires s.mail.log[j].envelope.kind == SessionRequest
    ensures s.mail.log[j].envelope.payload.Request?
    ensures PendingKnown(s, r.view.deviceId, r.line, |s.mail.log|, CR.Asked(r.view, s.mail.log[j].envelope, trusted).pending)
  {
    assert Asks(s, j, r.view.deviceId, CR.Asked(r.view, s.mail.log[j].envelope, trusted).pending);
  }

  /** What the history holds is no part of what must be justified. */
  lemma HistoryFree(s: State, a: AgentId, r: Runtime, r': Runtime)
    requires RuntimeOk(s, a, r) && r' == r.(read := r'.read, up := r'.up, acts := r'.acts)
    ensures RuntimeOk(s, a, r') == true
  {
  }

  lemma RequestKeepsRuntime(s: State, a: AgentId, r: Runtime, j: nat, trusted: bool, opts: CR.Options, writable: bool)
    requires RuntimeOk(s, a, r) && j < |s.mail.log| && s.mail.log[j].to == a && SentOk(s, s.mail.log[j])
    requires s.mail.log[j].envelope.kind == SessionRequest
    ensures RuntimeOk(s, a, Delivered(r, s.mail.log[j].envelope, trusted, opts, writable, |s.mail.log|)) == true
  {
    var msg := s.mail.log[j].envelope;
    var after := Delivered(r, msg, trusted, opts, writable, |s.mail.log|);
    AskedKnown(s, a, r, j, trusted);
    var asked := r.(view := CR.Asked(r.view, msg, trusted));
    assert RuntimeOk(s, a, asked);
    ApproveKeepsRuntime(s, a, asked, opts, writable);
    if trusted || opts.autoAccept {
      HistoryFree(s, a, After(asked, CR.Approved(opts, writable), Consent(asked.view.pending, opts.enableInput, |s.mail.log|, |r.acts|)), after);
    } else {
      assert after.outbox == asked.outbox;
      HistoryFree(s, a, asked, after);
    }
  }

  /** Whatever else a client sends by itself is no answer. */
  lemma OtherReply(s: State, r: Runtime, msg: Envelope, trusted: bool, opts: CR.Options, writable: bool, consent: Consent, i: nat)
    requires msg.kind != SessionRequest && i < |CR.Handle(r.view, msg, trusted, opts, writable).sent|
    ensures SpokenOk(s, r.view.deviceId, r.line, Outgoings(CR.Handle(r.view, msg, trusted, opts, writable).sent, consent)[i]) == true
  {
  }

  lemma ReadyKeepsRuntime(s: State, a: AgentId, r: Runtime, j: nat, trusted: bool, opts: CR.Options, writable: bool)
    requires RuntimeOk(s, a, r) && j < |s.mail.log| && s.mail.log[j].to == a
    requires s.mail.log[j].envelope.kind != SessionRequest
    ensures RuntimeOk(s, a, Delivered(r, s.mail.log[j].envelope, trusted, opts, writable, |s.mail.log|)) == true
  {
    var msg := s.mail.log[j].envelope;
    var after := Delivered(r, msg, trusted, opts, writable, |s.mail.log|);
    var consent := Consent(r.view.pending, opts.enableInput, |s.mail.log|, |r.acts|);
    var more := Outgoings(CR.Handle(r.view, msg, trusted, opts, writable).sent, consent);
    forall i | 0 <= i < |more| ensures SpokenOk(s, r.view.deviceId, r.line, more[i]) {
      OtherReply(s, r, msg, trusted, opts, writable, consent, i);
    }
    OutboxGrows(s, a, r, more);
    if msg.kind == SessionReady && msg.payload.Ready? {
      assert IsReadyFor(s, j, a) && Records(after.view.session, s.mail.log[j].envelope.payload);
    }
  }

  lemma DeliverKeepsRuntime(s: State, a: AgentId, r: Runtime, trusted: bool, opts: CR.Options, writable: bool)
    requires RuntimeOk(s, a, r) && BoxesOk(s.mail) && LogOk(s) && r.read < |Incoming(s, a)|
    ensures Incoming(s, a)[r.read] < |s.mail.log|
    ensures RuntimeOk(s, a, Delivered(r, s.mail.log[Incoming(s, a)[r.read]].envelope, trusted, opts, writable, |s.mail.log|)) == true
  {
    assert BoxOk(s.mail, a, s.mail.boxes[a]);
    var j := Incoming(s, a)[r.read];
    assert SentOk(s, s.mail.log[j]);
    if s.mail.log[j].envelope.kind == SessionRequest {
      RequestKeepsRuntime(s, a, r, j, trusted, opts, writable);
    } else {
      ReadyKeepsRuntime(s, a, r, j, trusted, opts, writable);
    }
  }

  lemma SayKeepsRuntime(s: State, a: AgentId, r: Runtime, msg: Envelope)
    requires RuntimeOk(s, a, r) && msg.kind != SessionConfirm
    requires msg.kind == DeviceRegister && msg.payload.Registration? ==> msg.payload.deviceId == r.view.deviceId
    ensures RuntimeOk(s, a, r.(outbox := r.outbox + [Outgoing(msg, None)])) == true
  {
    OutboxGrows(s, a, r, [Outgoing(msg, None)]);
  }

  lemma DialedRuntime(s: State, a: AgentId, deviceId: string, pending: CR.Pending, line: set<AgentId>)
    requires a in s.agents && !s.agents[a].web && s.agents[a].id == "" && s.agents[a].inbox == []
    requires PendingKnown(s, deviceId, line, |s.mail.log|, pending) && a in line
    ensures var first := CR.View(deviceId, pending, CR.NO_SESSION);
      RuntimeOk(s, a, Runtime(first, 0, [], true, first, [], line)) == true
  {
  }

  lemma LongerLine(s: State, deviceId: string, line: set<AgentId>, upto: nat, pending: CR.Pending, a: AgentId)
    requires PendingKnown(s, deviceId, line, upto, pending)
    ensures PendingKnown(s, deviceId, line + {a}, upto, pending)
  {
  }

  // ------------------------------------------------------------------ world runs

  lemma RelayKeepsWorld(w: World, event: Event, s': State)
    requires WorldInv(w) == true && Possible(w, Relay(event)) && s' == RelaySystem.Apply(w.relay, event)
    ensures WorldInv(w.(relay := s')) == true
  {
    StepKeeps(w.relay, event);
    forall a | a in w.runtimes ensures RuntimeOk(s', a, w.runtimes[a]) == true {
      RelayIsFair(w, event, a);
      RelayKeepsRuntime(w.relay, s', a, w.runtimes[a]);
    }
  }

  lemma OneRuntimeChanges(w: World, a: AgentId, r: Runtime)
    requires WorldInv(w) == true && RuntimeOk(w.relay, a, r) == true
    ensures WorldInv(w.(runtimes := w.runtimes[a := r])) == true
  {
  }

  lemma DialKeepsWorld(w: World, a: AgentId, deviceId: string, prior: Option<AgentId>)
    requires WorldInv(w) == true && Possible(w, Dial(a, deviceId, prior))
    ensures WorldInv(Happen(w, Dial(a, deviceId, prior))) == true
  {
    var s' := RelaySystem.Apply(w.relay, Connect(a));
    RelayKeepsWorld(w, Connect(a), s');
    FreshRuntime(w.(relay := s'), a, deviceId, prior);
    OneRuntimeChanges(w.(relay := s'), a, Fresh(w, a, deviceId, prior));
  }

  lemma FreshRuntime(w: World, a: AgentId, deviceId: string, prior: Option<AgentId>)
    requires a in w.relay.agents && w.relay.agents[a].id == "" && !w.relay.agents[a].web && w.relay.agents[a].inbox == []
    requires prior.Some? ==> prior.value in w.runtimes && w.runtimes[prior.value].view.deviceId == deviceId
                             && RuntimeOk(w.relay, prior.value, w.runtimes[prior.value])
    ensures RuntimeOk(w.relay, a, Fresh(w, a, deviceId, prior)) == true
  {
    var r := Fresh(w, a, deviceId, prior);
    if prior.Some? {
      LongerLine(w.relay, deviceId, w.runtimes[prior.value].line, |w.relay.mail.log|, r.view.pending, a);
    }
    DialedRuntime(w.relay, a, deviceId, r.view.pending, r.line);
  }

  lemma RuntimeIn(w: World, a: AgentId)
    requires WorldInv(w) && a in w.runtimes
    ensures RuntimeOk(w.relay, a, w.runtimes[a]) == true && BoxesOk(w.relay.mail) == true && LogOk(w.relay) == true
    ensures CreatedOk(w.relay) == true && ReadyOnce(w.relay) == true
  {
  }

  lemma DeliverKeepsWorld(w: World, a: AgentId, trusted: bool, opts: CR.Options, writable: bool)
    requires WorldInv(w) == true && Possible(w, Deliver(a, trusted, opts, writable))
    ensures WorldInv(Happen(w, Deliver(a, trusted, opts, writable))) == true
  {
    RuntimeIn(w, a);
    DeliverKeepsRuntime(w.relay, a, w.runtimes[a], trusted, opts, writable);
    OneRuntimeChanges(w, a, Happen(w, Deliver(a, trusted, opts, writable)).runtimes[a]);
  }

  lemma AnswerKeepsWorld(w: World, e: WorldEvent)
    requires WorldInv(w) == true && Possible(w, e) && (e.Approve? || e.Reject?)
    ensures WorldInv(Happen(w, e)) == true
  {
    var a := e.a;
    RuntimeIn(w, a);
    if e.Approve? {
      ApproveKeepsRuntime(w.relay, a, w.runtimes[a], e.opts, e.writable);
    } else {
      RejectKeepsRuntime(w.relay, a, w.runtimes[a], e.reason, e.writable);
    }
    OneRuntimeChanges(w, a, Happen(w, e).runtimes[a]);
  }

  lemma DropKeepsRuntime(s: State, a: AgentId, r: Runtime)
    requires RuntimeOk(s, a, r)
    ensures RuntimeOk(s, a, Dropped(r)) == true
  {
  }

  lemma SpeechKeepsWorld(w: World, e: WorldEvent)
    requires WorldInv(w) == true && Possible(w, e) && (e.Say? || e.Drop?)
    ensures WorldInv(Happen(w, e)) == true
  {
    var a := e.a;
    RuntimeIn(w, a);
    if e.Say? {
      SayKeepsRuntime(w.relay, a, w.runtimes[a], e.msg);
    } else {
      DropKeepsRuntime(w.relay, a, w.runtimes[a]);
    }
    OneRuntimeChanges(w, a, Happen(w, e).runtimes[a]);
  }

  lemma WorldStepKeeps(w: World, e: WorldEvent)
    requires WorldInv(w) == true && Possible(w, e)
    ensures WorldInv(Happen(w, e)) == true
  {
    match e
    case Relay(event) => RelayKeepsWorld(w, event, RelaySystem.Apply(w.relay, event));
    case Dial(a, deviceId, prior) => DialKeepsWorld(w, a, deviceId, prior);
    case Deliver(a, trusted, opts, writable) => DeliverKeepsWorld(w, a, trusted, opts, writable);
    case Approve(_, _, _) | Reject(_, _, _) => AnswerKeepsWorld(w, e);
    case Say(_, _) | Drop(_) => SpeechKeepsWorld(w, e);
  }

  lemma {:induction false} WorldRunsKeepInvariant(cfg: Config, worlds: seq<World>, events: seq<WorldEvent>, n: nat)
    requires IsWorldRun(cfg, worlds, events) && n < |worlds|
    ensures WorldInv(worlds[n]) == true
  {
    if n == 0 {
      InitialInv(cfg);
    } else {
      WorldRunsKeepInvariant(cfg, worlds, events, n - 1);
      WorldStepKeeps(worlds[n - 1], events[n - 1]);
    }
  }

  // -------------------------------------------------------------------- agreement

  /** An announced session was created, and the connection it was announced to
      is one of its two ends. */
  lemma AnnouncedSession(s: State, i: nat, a: AgentId)
    requires LogOk(s) && IsReadyFor(s, i, a)
    ensures var e := s.mail.log[i].envelope;
      && e.payload.readySession == e.sessionId && e.sessionId in s.created
      && var c := s.created[e.sessionId];
      && e.payload.readyMode == c.session.mode && e.payload.readyInput == c.session.inputAllowed && a in s.agents
      && (if IsControllerReady(e)
          then e.payload.peerId == c.session.controlledId && s.agents[a].id == c.session.controllerId
               && !e.payload.shouldSendView
          else e.payload.shouldSendView && e.payload.localRole == ROLE_CONTROLLED && e.payload.peerId == c.session.controllerId
               && a == c.source && s.agents[a].id == c.session.controlledId)
  {
    assert SentOk(s, s.mail.log[i]);
  }

  /** Connection `a` is the end of the session on record that its role says,
      as announced at position `i`. */
  predicate EndOf(s: State, i: nat, view: CR.View, a: AgentId) {
    var session := view.session;
    && IsReadyFor(s, i, a) && s.mail.log[i].envelope.sessionId == session.id
    && session.id in s.created
    && var c := s.created[session.id];
    && session.mode == c.session.mode && IsMode(session.mode) && session.inputAllowed == c.session.inputAllowed
    && (if IsControllerReady(s.mail.log[i].envelope)
        then session.localRole == ROLE_CONTROLLER && session.peerId == c.session.controlledId
             && view.deviceId == c.session.controllerId && !session.shouldSendView
        else session.localRole == ROLE_CONTROLLED && session.shouldSendView && session.peerId == c.session.controllerId
             && view.deviceId == c.session.controlledId && a == c.source)
  }

  lemma RecordedEnd(s: State, a: AgentId, r: Runtime) returns (i: nat)
    requires LogOk(s) && CreatedOk(s) && RuntimeOk(s, a, r) && r.view.session != CR.NO_SESSION
    ensures EndOf(s, i, r.view, a) == true
  {
    i :| IsReadyFor(s, i, a) && Records(r.view.session, s.mail.log[i].envelope.payload);
    AnnouncedSession(s, i, a);
    EndpointIds(s, s.mail.log[i].envelope.sessionId);
  }

  lemma EndpointIds(s: State, sid: string)
    requires CreatedOk(s) && sid in s.created
    ensures var session := s.created[sid].session;
      session.controllerId != "" && session.controlledId != "" && IsMode(session.mode)
  {
    assert CreationOk(s, sid);
  }

  /** The two views of one session agree on its mode and its input flag, play
      opposite roles and name each other; the controlled one, and it alone, sends
      its view. */
  predicate Agree(va: CR.View, vb: CR.View) {
    && va.session.mode == vb.session.mode && IsMode(va.session.mode)
    && va.session.inputAllowed == vb.session.inputAllowed
    && {va.session.localRole, vb.session.localRole} == {ROLE_CONTROLLER, ROLE_CONTROLLED}
    && (va.session.shouldSendView <==> va.session.localRole == ROLE_CONTROLLED)
    && (vb.session.shouldSendView <==> vb.session.localRole == ROLE_CONTROLLED)
    && va.session.peerId == vb.deviceId && vb.session.peerId == va.deviceId
  }

  /** Two different connections with the same session on record agree on it. */
  lemma Agreement(cfg: Config, worlds: seq<World>, events: seq<WorldEvent>, n: nat, a: AgentId, b: AgentId)
    requires IsWorldRun(cfg, worlds, events) && n < |worlds|
    requires a in worlds[n].runtimes && b in worlds[n].runtimes && a != b
    requires worlds[n].runtimes[a].view.session.id == worlds[n].runtimes[b].view.session.id != ""
    ensures Agree(worlds[n].runtimes[a].view, worlds[n].runtimes[b].view)
  {
    WorldRunsKeepInvariant(cfg, worlds, events, n);
    RuntimeIn(worlds[n], a);
    RuntimeIn(worlds[n], b);
    var i := RecordedEnd(worlds[n].relay, a, worlds[n].runtimes[a]);
    var j := RecordedEnd(worlds[n].relay, b, worlds[n].runtimes[b]);
    AgreementNow(worlds[n].relay, i, j, worlds[n].runtimes[a].view, worlds[n].runtimes[b].view, a, b);
  }

  lemma OneController(s: State, i: nat, j: nat, a: AgentId, b: AgentId)
    requires ReadyOnce(s) && IsReadyFor(s, i, a) && IsReadyFor(s, j, b) && a != b
    requires s.mail.log[i].envelope.sessionId == s.mail.log[j].envelope.sessionId
    ensures !IsControllerReady(s.mail.log[i].envelope) || !IsControllerReady(s.mail.log[j].envelope)
  {
  }

  lemma AgreementNow(s: State, i: nat, j: nat, va: CR.View, vb: CR.View, a: AgentId, b: AgentId)
    requires ReadyOnce(s) && a != b && va.session.id == vb.session.id
    requires EndOf(s, i, va, a) && EndOf(s, j, vb, b)
    ensures Agree(va, vb)
  {
    OneController(s, i, j, a, b);
  }

  // ---------------------------------------------------------------------- consent

  /** The confirm of a created session, as its controlled client sent it. */
  ghost predicate Spoken(w: World, c: Creation) {
    c.source in w.runtimes &&
    var r := w.runtimes[c.source];
      && 0 < c.index <= |r.outbox|
      && var o := r.outbox[c.index - 1];
      && o.consent.Some? && o.envelope.kind == SessionConfirm && o.envelope.payload == c.confirm
      && o.consent.value.pending.peerId == c.session.controllerId
      && c.confirm == Confirm(true, "", o.consent.value.pending.mode, o.consent.value.pending.input && o.consent.value.enableInput)
      && PendingKnown(w.relay, r.view.deviceId, r.line, o.consent.value.logged, o.consent.value.pending)
      && r.view.deviceId == c.session.controlledId
  }

  lemma ConfirmSpoken(w: World, sid: string)
    requires WorldInv(w) == true && sid in w.relay.created && w.relay.created[sid].source in w.runtimes
    ensures Spoken(w, w.relay.created[sid]) == true
  {
    var c := w.relay.created[sid];
    assert CreationOk(w.relay, sid);
    assert RuntimeOk(w.relay, c.source, w.runtimes[c.source]);
    assert SpokenOk(w.relay, w.runtimes[c.source].view.deviceId, w.runtimes[c.source].line, w.runtimes[c.source].outbox[c.index - 1]);
  }

  /** The client that confirmed session `c` had input enabled when it answered, and
      the request it answered had been offered before to that very connection, or
      to one before it from which the client still had the request waiting; it came
      from the session's controller, was addressed to the controlled device, and
      asked for input. */
  ghost predicate WasConsented(w: World, c: Creation) {
    && c.source in w.runtimes && 0 < c.index <= |w.runtimes[c.source].outbox|
    && var o := w.runtimes[c.source].outbox[c.index - 1];
    && o.envelope.payload == c.confirm && o.consent.Some? && o.consent.value.enableInput
    && exists j: nat :: j < o.consent.value.logged && Asks(w.relay, j, c.session.controlledId, o.consent.value.pending)
         && w.relay.mail.log[j].to in w.runtimes[c.source].line
         && w.relay.mail.log[j].envelope.from == c.session.controllerId
         && w.relay.mail.log[j].envelope.payload.inputRequested
  }

  /** The client that confirmed session `c` did so at an act of consent: its user
      approved, or the request came in from a trusted device or while the user
      accepts all.  The answer was to a request of the session's controller for the
      controlled device, offered before to that very connection or to one before it
      from which the client still had it waiting; it took over the request's mode,
      and granted input exactly if the request asked for it and the option was on. */
  ghost predicate WasAnswered(w: World, c: Creation) {
    && c.source in w.runtimes && 0 < c.index <= |w.runtimes[c.source].outbox|
    && var r := w.runtimes[c.source]; var o := r.outbox[c.index - 1];
    && o.envelope.payload == c.confirm && c.confirm.Confirm? && o.consent.Some? && o.consent.value.at < |r.acts|
    && var act := r.acts[o.consent.value.at];
    && (act.Approved? || (CR.IsRequest(act) && (act.trusted || act.opts.autoAccept)))
    && exists j: nat :: j < o.consent.value.logged && j < |w.relay.mail.log| && w.relay.mail.log[j].to in r.line
         && var e := w.relay.mail.log[j].envelope;
         && e.kind == SessionRequest && e.from == c.session.controllerId && e.to == c.session.controlledId
         && e.payload.Request? && c.confirm.acceptedMode == NormalizeMode(e.payload.mode)
         && c.confirm.confirmInput == (e.payload.inputRequested && act.opts.enableInput)
  }

  lemma AnswerOnRecord(w: World, c: Creation)
    requires Spoken(w, c) && Follows(w.runtimes[c.source]) && c.session.controllerId != ""
    ensures WasAnswered(w, c) == true
  {
    var r := w.runtimes[c.source];
    var o := r.outbox[c.index - 1];
    assert Evidenced(r.acts, o);
    var j: nat :| j < o.consent.value.logged && Asks(w.relay, j, r.view.deviceId, o.consent.value.pending)
                  && w.relay.mail.log[j].to in r.line;
    assert w.relay.mail.log[j].envelope.from == c.session.controllerId;
  }

  /** Every session that a client agreed to, with input or without, was agreed to
      with the consent of its user. */
  lemma SessionWasConsented(cfg: Config, worlds: seq<World>, events: seq<WorldEvent>, n: nat, sid: string)
    requires IsWorldRun(cfg, worlds, events) && n < |worlds|
    requires sid in worlds[n].relay.created && worlds[n].relay.created[sid].source in worlds[n].runtimes
    ensures WasAnswered(worlds[n], worlds[n].relay.created[sid])
  {
    WorldRunsKeepInvariant(cfg, worlds, events, n);
    RunsRecord(cfg, worlds, events, n);
    ConfirmSpoken(worlds[n], sid);
    ControllerNamed(worlds[n], sid);
    AnswerOnRecord(worlds[n], worlds[n].relay.created[sid]);
  }

  lemma ControllerNamed(w: World, sid: string)
    requires WorldInv(w) && sid in w.relay.created
    ensures w.relay.created[sid].session.controllerId != ""
  {
    assert CreationOk(w.relay, sid);
  }

  lemma InputSessionConsented(w: World, sid: string)
    requires WorldInv(w) && sid in w.relay.created && w.relay.created[sid].session.inputAllowed
    requires w.relay.created[sid].source in w.runtimes
    ensures WasConsented(w, w.relay.created[sid]) == true
  {
    SessionInputNeedsConfirm(w.relay, sid);
    ConfirmSpoken(w, sid);
  }

  /** If a client has a session with input on record, and the controlled side is
      a client too, then that side's user consented to just that. */
  lemma InputWasConsented(cfg: Config, worlds: seq<World>, events: seq<WorldEvent>, n: nat, a: AgentId)
    requires IsWorldRun(cfg, worlds, events) && n < |worlds| && a in worlds[n].runtimes
    requires worlds[n].runtimes[a].view.session.inputAllowed
    ensures var w := worlds[n]; var sid := w.runtimes[a].view.session.id;
      sid in w.relay.created && (w.relay.created[sid].source in w.runtimes ==> WasConsented(w, w.relay.created[sid]))
  {
    WorldRunsKeepInvariant(cfg, worlds, events, n);
    var sid := worlds[n].runtimes[a].view.session.id;
    InputOnRecord(worlds[n], a);
    if worlds[n].relay.created[sid].source in worlds[n].runtimes { InputSessionConsented(worlds[n], sid); }
  }

  lemma InputOnRecord(w: World, a: AgentId)
    requires WorldInv(w) && a in w.runtimes && w.runtimes[a].view.session.inputAllowed
    ensures var sid := w.runtimes[a].view.session.id;
      sid in w.relay.created && w.relay.created[sid].session.inputAllowed
  {
    RuntimeIn(w, a);
    var i := RecordedEnd(w.relay, a, w.runtimes[a]);
  }

  lemma SessionInputNeedsConfirm(s: State, sid: string)
    requires CreatedOk(s) && sid in s.created && s.created[sid].session.inputAllowed
    ensures s.created[sid].confirm.Confirm? && s.created[sid].confirm.confirmInput && s.created[sid].session.controllerId != ""
  {
    assert CreationOk(s, sid);
  }

  /** The position in the log that client `a` reads next. */
  function ReadsNext(w: World, a: AgentId): nat
    requires a in w.runtimes && w.runtimes[a].read < |Incoming(w.relay, a)|
  {
    Incoming(w.relay, a)[w.runtimes[a].read]
  }

  /** `msg` came under the id of the controller of a session that the device was the
      controlled end of, with input allowed; and if the connection that confirmed
      it is a client, its user had agreed to input. */
  ghost predicate Authorized(w: World, msg: Envelope, deviceId: string) {
    && msg.sessionId in w.relay.created
    && var c := w.relay.created[msg.sessionId];
    && c.session.inputAllowed && msg.from == c.session.controllerId && c.session.controlledId == deviceId
    && (c.source in w.runtimes ==> WasConsented(w, c))
  }

  /** In step `e` a client injects the mouse or keyboard event it reads. */
  ghost predicate InjectsNow(w: World, e: WorldEvent) {
    e.Deliver? && Possible(w, e) && CR.Injects(w.relay.mail.log[ReadsNext(w, e.a)].envelope, e.opts)
  }

  /** Whatever a client injects is authorized, and its user has input enabled. */
  lemma InjectedInputIsAuthorized(cfg: Config, worlds: seq<World>, events: seq<WorldEvent>, n: nat)
    requires IsWorldRun(cfg, worlds, events) && n < |events| && InjectsNow(worlds[n], events[n])
    ensures var w := worlds[n]; var e := events[n];
      e.opts.enableInput && Authorized(w, w.relay.mail.log[ReadsNext(w, e.a)].envelope, w.runtimes[e.a].view.deviceId)
  {
    WorldRunsKeepInvariant(cfg, worlds, events, n);
    InjectedNow(worlds[n], events[n].a, ReadsNext(worlds[n], events[n].a));
  }

  lemma InjectedNow(w: World, a: AgentId, j: nat)
    requires WorldInv(w) && a in w.runtimes && w.runtimes[a].read < |Incoming(w.relay, a)|
    requires j == Incoming(w.relay, a)[w.runtimes[a].read] < |w.relay.mail.log|
    requires IsInput(w.relay.mail.log[j].envelope.kind)
    ensures Authorized(w, w.relay.mail.log[j].envelope, w.runtimes[a].view.deviceId) == true
  {
    RuntimeIn(w, a);
    ReadOwn(w.relay, a, w.runtimes[a].read);
    InputReached(w.relay, a, w.runtimes[a], j);
    var sid := w.relay.mail.log[j].envelope.sessionId;
    if w.relay.created[sid].source in w.runtimes { InputSessionConsented(w, sid); }
  }

  lemma ReadOwn(s: State, a: AgentId, k: nat)
    requires BoxesOk(s.mail) && k < |Incoming(s, a)|
    ensures Incoming(s, a)[k] < |s.mail.log| && s.mail.log[Incoming(s, a)[k]].to == a
  {
    assert BoxOk(s.mail, a, s.mail.boxes[a]);
  }

  lemma InputReached(s: State, a: AgentId, r: Runtime, j: nat)
    requires LogOk(s) == true && CreatedOk(s) == true && RuntimeOk(s, a, r) == true
    requires j < |s.mail.log| && s.mail.log[j].to == a && IsInput(s.mail.log[j].envelope.kind)
    ensures var msg := s.mail.log[j].envelope;
      && msg.sessionId in s.created
      && var c := s.created[msg.sessionId];
      c.session.inputAllowed && msg.from == c.session.controllerId && c.session.controlledId == r.view.deviceId
  {
    InputEnvelope(s, j);
    EndpointIds(s, s.mail.log[j].envelope.sessionId);
    NamedRuntime(s, a, r);
  }

  lemma NamedRuntime(s: State, a: AgentId, r: Runtime)
    requires RuntimeOk(s, a, r)
    ensures a in s.agents && (s.agents[a].id == "" || s.agents[a].id == r.view.deviceId)
  {
  }

  // ------------------------------------------------------------ session on record

  /** An accepting answer was sent at an act that is an approval by the user, or the
      receipt of a request as trusted or while the user accepts all; and the option
      recorded with it is that of this act. */
  predicate Evidenced(acts: seq<CR.Act>, o: Outgoing) {
    o.envelope.kind == SessionConfirm && o.envelope.payload.Confirm? && o.envelope.payload.accepted ==>
      && o.consent.Some? && o.consent.value.at < |acts|
      && var act := acts[o.consent.value.at];
      && (act.Approved? || (CR.IsRequest(act) && (act.trusted || act.opts.autoAccept)))
      && o.consent.value.enableInput == act.opts.enableInput
  }

  /** What a client has become and said follows from what happened to it. */
  ghost predicate Follows(r: Runtime) {
    && r.first.session == CR.NO_SESSION && r.view == CR.Run(r.first, r.acts).view
    && forall i :: 0 <= i < |r.outbox| ==> Evidenced(r.acts, r.outbox[i])
  }

  ghost predicate RecordsOk(runtimes: map<AgentId, Runtime>) {
    forall a :: a in runtimes ==> Follows(runtimes[a])
  }

  /** A consent recorded with an act is the act's own. */
  predicate Fits(act: CR.Act, consent: Consent, at: nat) {
    && consent.at == at
    && (act.Got? ==> consent.enableInput == act.opts.enableInput)
    && (act.Approved? ==> consent.enableInput == act.opts.enableInput)
  }

  lemma ActEvidenced(view: CR.View, acts: seq<CR.Act>, act: CR.Act, consent: Consent, i: nat)
    requires Fits(act, consent, |acts|) && i < |CR.Do(view, act).sent|
    ensures Evidenced(acts + [act], Outgoings(CR.Do(view, act).sent, consent)[i]) == true
  {
    CR.OneAnswer(view, act);
    var e := CR.Do(view, act).sent[i];
    assert e in CR.Do(view, act).sent;
    if CR.IsAnswer(e, true) { assert CR.Consents(act); }
  }

  lemma StaysEvidenced(acts: seq<CR.Act>, act: CR.Act, o: Outgoing)
    requires Evidenced(acts, o)
    ensures Evidenced(acts + [act], o) == true
  {
  }

  lemma RecordOn(r: Runtime, act: CR.Act, consent: Consent)
    requires Follows(r) && Fits(act, consent, |r.acts|)
    ensures Follows(After(r, act, consent)) == true
  {
    var after := After(r, act, consent);
    CR.RunStep(r.first, r.acts + [act], |r.acts|);
    assert (r.acts + [act])[..|r.acts| + 1] == r.acts + [act] && (r.acts + [act])[..|r.acts|] == r.acts;
    forall i | 0 <= i < |after.outbox| ensures Evidenced(after.acts, after.outbox[i]) == true {
      if i < |r.outbox| {
        StaysEvidenced(r.acts, act, r.outbox[i]);
      } else {
        ActEvidenced(r.view, r.acts, act, consent, i - |r.outbox|);
      }
    }
  }

  lemma RecordsIn(runtimes: map<AgentId, Runtime>, a: AgentId, r: Runtime)
    requires RecordsOk(runtimes) && Follows(r) == true
    ensures RecordsOk(runtimes[a := r]) == true
  {
  }

  lemma DeliveryRecords(r: Runtime, msg: Envelope, trusted: bool, opts: CR.Options, writable: bool, logged: nat)
    requires Follows(r)
    ensures Follows(Delivered(r, msg, trusted, opts, writable, logged)) == true
  {
    var asked := if msg.kind == SessionRequest && msg.payload.Request? then CR.Asked(r.view, msg, trusted) else r.view;
    RecordOn(r.(read := r.read + 1), CR.Got(msg, trusted, opts, writable), Consent(asked.pending, opts.enableInput, logged, |r.acts|));
  }

  lemma ActorRecords(w: World, e: WorldEvent)
    requires Possible(w, e) && RecordsOk(w.runtimes) && !e.Relay? && !e.Dial?
    ensures Follows(Acted(w, e)) == true
  {
    var r := w.runtimes[e.a];
    match e
    case Deliver(a, trusted, opts, writable) =>
      DeliveryRecords(r, w.relay.mail.log[Incoming(w.relay, a)[r.read]].envelope, trusted, opts, writable, |w.relay.mail.log|);
    case Approve(_, opts, writable) =>
      RecordOn(r, CR.Approved(opts, writable), Consent(r.view.pending, opts.enableInput, |w.relay.mail.log|, |r.acts|));
    case Reject(_, reason, writable) =>
      RecordOn(r, CR.Rejected(reason, writable), Consent(r.view.pending, false, |w.relay.mail.log|, |r.acts|));
    case Say(_, _) | Drop(_) => SpeechRecords(w, e);
  }

  lemma SpeechRecords(w: World, e: WorldEvent)
    requires Possible(w, e) && (e.Say? || e.Drop?)
    requires Follows(w.runtimes[e.a]) == true
    ensures Follows(Acted(w, e)) == true
  {
    if e.Drop? { DroppedFollows(w.runtimes[e.a]); }
  }

  lemma DroppedFollows(r: Runtime)
    requires Follows(r)
    ensures Follows(Dropped(r)) == true
  {
    CR.RunStep(r.first, r.acts + [CR.Disconnected], |r.acts|);
    assert (r.acts + [CR.Disconnected])[..|r.acts| + 1] == r.acts + [CR.Disconnected];
    assert (r.acts + [CR.Disconnected])[..|r.acts|] == r.acts;
    forall i | 0 <= i < |r.outbox| ensures Evidenced(Dropped(r).acts, r.outbox[i]) == true {
      StaysEvidenced(r.acts, CR.Disconnected, r.outbox[i]);
    }
  }

  lemma StepRecords(w: World, e: WorldEvent)
    requires Possible(w, e) && RecordsOk(w.runtimes)
    ensures RecordsOk(Happen(w, e).runtimes) == true
  {
    if e.Dial? {
      RecordsIn(w.runtimes, e.a, Happen(w, e).runtimes[e.a]);
    } else if !e.Relay? {
      ActorRecords(w, e);
      RecordsIn(w.runtimes, e.a, Acted(w, e));
    }
  }

  lemma {:induction false} RunsRecord(cfg: Config, worlds: seq<World>, events: seq<WorldEvent>, n: nat)
    requires IsWorldRun(cfg, worlds, events) && n < |worlds|
    ensures RecordsOk(worlds[n].runtimes)
  {
    if n > 0 {
      RunsRecord(cfg, worlds, events, n - 1);
      StepRecords(worlds[n - 1], events[n - 1]);
    }
  }

  /** The gate for injected input looks at the user's option only.  The session the
      input names is the one on record if and only if its announcement is the
      last the client heard, and no close of any session has come since. */
  lemma InjectedOnRecordIff(cfg: Config, worlds: seq<World>, events: seq<WorldEvent>, n: nat)
    requires IsWorldRun(cfg, worlds, events) && n < |events| && InjectsNow(worlds[n], events[n])
    ensures var w := worlds[n]; var r := w.runtimes[events[n].a];
      var sid := w.relay.mail.log[ReadsNext(w, events[n].a)].envelope.sessionId;
      r.view.session.id == sid <==> CR.LastAnnounced(r.acts, sid)
  {
    RunsRecord(cfg, worlds, events, n);
    InjectedInputIsAuthorized(cfg, worlds, events, n);
    var w, a := worlds[n], events[n].a;
    var sid := w.relay.mail.log[ReadsNext(w, a)].envelope.sessionId;
    SessionIsNamed(cfg, worlds, events, n, sid);
    assert Follows(w.runtimes[a]);
    CR.SessionOfLastReady(w.runtimes[a].first, w.runtimes[a].acts);
    CR.OnRecordIff(w.runtimes[a].acts, w.runtimes[a].view.session, sid);
  }

  /** A client's stream loop runs for a session if and only if that session is on its
      record with this side as the controlled end; and then it is a session that the
      relay created with this device as the controlled one. */
  lemma StreamsAsControlled(cfg: Config, worlds: seq<World>, events: seq<WorldEvent>, n: nat, a: AgentId, sid: string)
    requires IsWorldRun(cfg, worlds, events) && n < |worlds| && a in worlds[n].runtimes
    ensures var w := worlds[n]; var r := w.runtimes[a];
      && (CR.Streaming(r.first, r.acts) == Some(sid) <==>
            r.view.session.id == sid && r.view.session.localRole == ROLE_CONTROLLED)
      && (CR.Streaming(r.first, r.acts) == Some(sid) ==>
            sid in w.relay.created && w.relay.created[sid].session.controlledId == r.view.deviceId)
  {
    var r := worlds[n].runtimes[a];
    RunsRecord(cfg, worlds, events, n);
    assert Follows(r);
    CR.StreamFollowsSession(r.first, r.acts);
    WorldRunsKeepInvariant(cfg, worlds, events, n);
    RuntimeIn(worlds[n], a);
    if r.view.session != CR.NO_SESSION { var i := RecordedEnd(worlds[n].relay, a, r); }
  }

  lemma SessionIsNamed(cfg: Config, worlds: seq<World>, events: seq<WorldEvent>, n: nat, sid: string)
    requires IsWorldRun(cfg, worlds, events) && n < |worlds| && sid in worlds[n].relay.created
    ensures sid != ""
  {
    WorldRunsKeepInvariant(cfg, worlds, events, n);
    NamedSession(worlds[n].relay, sid);
  }

  lemma NamedSession(s: State, sid: string)
    requires CreatedOk(s) && sid in s.created
    ensures sid != ""
  {
    assert CreationOk(s, sid);
  }

  // ---------------------------------------------------------- the mode of a session

  /** A session in another mode than the one approved carries no input, and it is
      in that mode just when no request was consumed, or one in the same mode. */
  predicate ModeFromRequest(s: State, c: Creation) {
    && c.confirm.Confirm?
    && (c.session.mode != c.confirm.acceptedMode ==> !c.session.inputAllowed)
    && (c.session.mode == c.confirm.acceptedMode <==>
          c.consumed.None? || (c.consumed.value < |s.requests|
                               && s.requests[c.consumed.value].request.mode == c.confirm.acceptedMode))
  }

  /** The mode of a session is that of the request the relay stored last, which
      need not be the one the client answered.  When they differ, the session
      carries no input: only a session in the very mode approved ever does. */
  lemma OtherModeCarriesNoInput(cfg: Config, worlds: seq<World>, events: seq<WorldEvent>, n: nat, sid: string)
    requires IsWorldRun(cfg, worlds, events) && n < |worlds|
    requires sid in worlds[n].relay.created && worlds[n].relay.created[sid].source in worlds[n].runtimes
    ensures ModeFromRequest(worlds[n].relay, worlds[n].relay.created[sid])
  {
    WorldRunsKeepInvariant(cfg, worlds, events, n);
    ModeNow(worlds[n], sid);
  }

  lemma ModeOfAnswer(w: World, sid: string)
    requires sid in w.relay.created && CreationOk(w.relay, sid) && HistoryOk(w.relay) && Spoken(w, w.relay.created[sid])
    ensures ModeFromRequest(w.relay, w.relay.created[sid]) == true
  {
    var c := w.relay.created[sid];
    var pending := w.runtimes[c.source].outbox[c.index - 1].consent.value.pending;
    var j: nat :| Asks(w.relay, j, w.runtimes[c.source].view.deviceId, pending);
    assert pending.mode == c.confirm.acceptedMode && IsMode(pending.mode);
    if c.consumed.Some? { assert IsMode(w.relay.requests[c.consumed.value].request.mode); }
  }

  lemma ModeNow(w: World, sid: string)
    requires WorldInv(w) == true && sid in w.relay.created && w.relay.created[sid].source in w.runtimes
    ensures ModeFromRequest(w.relay, w.relay.created[sid]) == true
  {
    ConfirmSpoken(w, sid);
    assert CreationOk(w.relay, sid);
    ModeOfAnswer(w, sid);
  }
}
