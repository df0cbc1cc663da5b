/** What a visitor may ask for, over whole runs: its connection keeps the device and
    the mode of the link it came by, and that link is as its device created it. */
module RelayVisits {
  import opened Protocol
  import opened Registry
  import opened RelaySystem
  import opened RelayInvariants
  import opened RelaySteps
  import opened RelayRuns
  import opened RelayMoves
  import opened RelayRefinement
  import PendingMap
  import WebShares

  // ----------------------------------------------------------------- step by step

  /** The connection is of the same visitor, with the same link, device and mode. */
  predicate SameVisitor(agent: Agent, agent': Agent) {
    && agent'.web == agent.web
    && (agent.web ==>
          && agent'.id == agent.id && agent'.shareToken == agent.shareToken
          && agent'.controlled == agent.controlled && agent'.shareMode == agent.shareMode)
  }

  /** A visitor comes with `e` by the link stored for its token. */
  predicate ComesBy(s: State, e: Event, a: AgentId, agent: Agent) {
    && e.Visit? && e.a == a && agent.web && agent.id == e.id && agent.shareToken == e.token
    && WebShares.Get(s.tables.shares, e.token, e.now, s.tables.clients.Keys).Found?
    && var share := WebShares.Get(s.tables.shares, e.token, e.now, s.tables.clients.Keys).share;
    && agent.controlled == share.controlledId && IsMode(agent.shareMode)
    && (agent.shareMode == MODE_VIEW_CONTROL <==> share.mode == MODE_VIEW_CONTROL)
  }

  predicate VisitorStays(s: State, e: Event, s': State, a: AgentId)
    requires a in s'.agents
  {
    && (a in s.agents ==> SameVisitor(s.agents[a], s'.agents[a]))
    && (a !in s.agents && s'.agents[a].web ==> ComesBy(s, e, a, s'.agents[a]))
  }

  ghost predicate VisitorsStay(s: State, e: Event, s': State) {
    forall a :: a in s'.agents ==> VisitorStays(s, e, s', a)
  }

  lemma ProceedStays(s: State, a: AgentId, c: Choice)
    requires a in s.agents && Runnable(s, a, c)
    ensures VisitorsStay(s, Proceed(a, c), Run(s, a, c)) == true
  {
    RunMovesOnly(s, a, c);
    MovedStays(s, Proceed(a, c), Run(s, a, c), a);
  }

  lemma MovedStays(s: State, e: Event, s': State, a: AgentId)
    requires MovesOnly(s, s', a) == true
    ensures VisitorsStay(s, e, s') == true
  {
  }

  lemma ReceiveStays(s: State, a: AgentId, msg: Envelope, now: int)
    requires a in s.agents
    ensures VisitorsStay(s, Recv(a, msg, now), Receive(s, a, msg, now)) == true
  {
    var agent := s.agents[a];
    assert agent.web ==> !Entry(s.cfg, a, agent, msg).Registering?;
  }

  lemma OtherStays(s: State, e: Event)
    requires Enabled(s, e) && !e.Proceed? && !e.Recv?
    ensures VisitorsStay(s, e, RelaySystem.Apply(s, e)) == true
  {
  }

  lemma StepStays(s: State, e: Event)
    requires Enabled(s, e)
    ensures VisitorsStay(s, e, RelaySystem.Apply(s, e)) == true
  {
    match e
    case Proceed(a, c) => ProceedStays(s, a, c);
    case Recv(a, msg, now) => ReceiveStays(s, a, msg, now);
    case _ => OtherStays(s, e);
  }

  ghost predicate VisitorsStayEach(states: seq<State>, events: seq<Event>) {
    && |states| == |events| + 1 && states[0].agents == map[]
    && forall i :: 0 <= i < |events| ==> VisitorsStay(states[i], events[i], states[i + 1])
  }

  lemma RunStays(cfg: Config, states: seq<State>, events: seq<Event>)
    requires IsRun(cfg, states, events)
    ensures VisitorsStayEach(states, events)
  {
    forall i | 0 <= i < |events| ensures VisitorsStay(states[i], events[i], states[i + 1]) == true {
      StepStays(states[i], events[i]);
    }
  }

  lemma {:induction false} CameBy(states: seq<State>, events: seq<Event>, n: nat, a: AgentId) returns (k: nat)
    requires VisitorsStayEach(states, events) && n < |states| && a in states[n].agents && states[n].agents[a].web
    ensures k < n && ComesBy(states[k], events[k], a, states[n].agents[a])
  {
    k := n - 1;
    assert VisitorsStay(states[k], events[k], states[k + 1]);
    assert VisitorStays(states[k], events[k], states[k + 1], a);
    if a in states[k].agents {
      k := CameBy(states, events, n - 1, a);
    }
  }

  // ------------------------------------------------------------------- whole runs

  /** The visitor has the device of link `i` and may ask for just its mode. */
  predicate AsLinked(ops: seq<WebShares.Op>, i: nat, agent: Agent) {
    && WebShares.Grants(ops, i, agent.shareToken)
    && agent.controlled == ops[i].device && IsMode(agent.shareMode)
    && (agent.shareMode == MODE_VIEW_CONTROL <==> ops[i].mode == MODE_VIEW_CONTROL)
  }

  /** Every visitor's connection stems from a visit at which the history had granted
      the link of its token and not taken it back; it is bound for the device that
      created that link, in view-control if and only if the device asked for it. */
  lemma VisitorsAreLinked(cfg: Config, states: seq<State>, events: seq<Event>, n: nat, a: AgentId) returns (k: nat, i: nat)
    requires IsRun(cfg, states, events) && n < |states| && a in states[n].agents && states[n].agents[a].web
    ensures k < n && events[k].Visit? && events[k].a == a
    ensures events[k].id == states[n].agents[a].id && events[k].token == states[n].agents[a].shareToken
    ensures AsLinked(ShareOps(states, events, k), i, states[n].agents[a])
  {
    RunStays(cfg, states, events);
    k := CameBy(states, events, n, a);
    var ops, token, now, online := ShareOps(states, events, k), events[k].token, events[k].now, states[k].tables.clients.Keys;
    TablesAreRuns(cfg, states, events, k, 0);
    WebShares.FoundAsAsked(ops, token, now, online);
    i :| WebShares.Grants(ops, i, token) && WebShares.AsAsked(WebShares.Get(WebShares.Run(ops), token, now, online).share, ops[i]);
  }

  /** What the device is asked on behalf of the visitor of link `op`. */
  predicate AsksAsLinked(id: string, op: WebShares.Op, e: Envelope)
    requires op.CreateOp?
  {
    && e.kind == SessionRequest && e.from == id && e.to == op.device
    && e.payload.Request? && e.payload.target == op.device && e.payload.requesterRole == ROLE_CONTROLLER
    && IsMode(e.payload.mode)
    && (e.payload.mode == MODE_VIEW_CONTROL <==> op.mode == MODE_VIEW_CONTROL)
    && (e.payload.inputRequested <==> op.mode == MODE_VIEW_CONTROL)
  }

  /** What is on record for the visitor of link `op`. */
  predicate StoredAsLinked(s: State, id: string, op: WebShares.Op)
    requires op.CreateOp?
  {
    var key := PendingMap.Key(id, op.device);
    && key in s.tables.pending
    && s.tables.pending[key].controllerId == id && s.tables.pending[key].controlledId == op.device
    && IsMode(s.tables.pending[key].mode)
    && (s.tables.pending[key].mode == MODE_VIEW_CONTROL <==> op.mode == MODE_VIEW_CONTROL)
  }

  lemma StoresVisit(s: State, a: AgentId, c: Choice)
    requires a in s.agents && s.agents[a].pc.WebStore? && Runnable(s, a, c) == true
    ensures Run(s, a, c) == StoringVisit(s, a, s.agents[a].pc.target, c.now)
  {
    RunsJoin(s, a, c);
  }

  lemma OnlyVisitorsStoreVisits(s: State, a: AgentId)
    requires Inv(s) && a in s.agents && s.agents[a].pc.WebStore?
    ensures s.agents[a].web
  {
    assert PcOk(s, a, s.agents[a].pc);
  }

  lemma VisitAsLinked(s: State, a: AgentId, x: AgentId, now: int, ops: seq<WebShares.Op>, i: nat)
    requires a in s.agents && AsLinked(ops, i, s.agents[a])
    ensures var s' := StoringVisit(s, a, x, now);
      && StoredAsLinked(s', s.agents[a].id, ops[i]) == true
      && s'.agents[a].pc.Offer? && s'.agents[a].pc.target == x
      && AsksAsLinked(s.agents[a].id, ops[i], s'.agents[a].pc.envelope) == true
  {
  }

  /** When the request of a visitor is put on record, it is for the device that
      created the link the visitor came by, and so is what that device will be asked:
      in view-control, with input, if and only if the device created the link for
      view-control.  At the visit the history had granted that link and not taken it
      back, and before the request it was looked up again. */
  lemma VisitorAsksAsLinked(cfg: Config, states: seq<State>, events: seq<Event>, n: nat, a: AgentId) returns (k: nat, i: nat)
    requires IsRun(cfg, states, events) && n < |events| && events[n].Proceed? && events[n].a == a
    requires a in states[n].agents && states[n].agents[a].pc.WebStore?
    ensures k < n && events[k].Visit? && events[k].a == a
    ensures WebShares.Grants(ShareOps(states, events, k), i, events[k].token)
    ensures StoredAsLinked(states[n + 1], events[k].id, ShareOps(states, events, k)[i])
    ensures a in states[n + 1].agents && states[n + 1].agents[a].pc.Offer?
    ensures states[n + 1].agents[a].pc.target == states[n].agents[a].pc.target
    ensures AsksAsLinked(events[k].id, ShareOps(states, events, k)[i], states[n + 1].agents[a].pc.envelope)
  {
    RunsKeepInvariant(cfg, states, events, n);
    OnlyVisitorsStoreVisits(states[n], a);
    k, i := VisitorsAreLinked(cfg, states, events, n, a);
    StoresVisit(states[n], a, events[n].choice);
    VisitAsLinked(states[n], a, states[n].agents[a].pc.target, events[n].choice.now, ShareOps(states, events, k), i);
  }
}
