/** What the relay guarantees in every run, however handlers interleave. */
module RelayTheorems {
  import opened Protocol
  import opened Registry
  import opened RelaySystem
  import opened RelayInvariants
  import opened RelayRuns
  import opened RelaySteps
  import opened RelaySeats
  import opened RelayForwarding
  import PendingMap

  // ---------------------------------------------------------- input forwarding

  /** `m` is the message of the controller of a session that allows input, with
      only From and To restamped, on its way to the controlled device. */
  ghost predicate AuthorizedInput(s: State, m: Sent) {
    var e := m.envelope;
    && e.sessionId in s.created
    && var session := s.created[e.sessionId].session;
    && session.inputAllowed && session.mode == MODE_VIEW_CONTROL
    && IsDevice(s, m.to, session.controlledId) && e.to == session.controlledId
    && IsParty(s, m.source, session.controllerId) && e.from == session.controllerId
    && exists sent :: Took(s, m.source, m.index, sent) && e == Stamped(sent, e.from, e.to)
  }

  /** Every mouse or keyboard envelope ever offered to a queue is, but for From and
      To, the message of a connection with the id of the controller of a session
      with input allowed.  While the relay handled that message, the session was
      stored, and the recipient was the device registered under its controlled
      id.  Whether the sender was itself ever registered, `SenderSeatIff` tells. */
  lemma InputSoundness(cfg: Config, states: seq<State>, events: seq<Event>, n: nat, i: nat)
    requires IsRun(cfg, states, events) && n < |states|
    requires i < |states[n].mail.log| && IsInput(states[n].mail.log[i].envelope.kind)
    ensures AuthorizedInput(states[n], states[n].mail.log[i])
    ensures WasStored(states, n, i)
    ensures var m := states[n].mail.log[i];
      exists l: nat :: l < n && InHandling(states[l], m, i) && Seated(states[l], m.envelope.to, m.to)
  {
    RunsKeepInvariant(cfg, states, events, n);
    InputMail(states[n], i);
    ServedWhileStored(cfg, states, events, n, i);
    DeviceHeldSeat(cfg, states, events, n, i);
  }

  /** A connection with the id of a created session's controlled device is a device. */
  lemma ControlledIsDevice(s: State, sid: string, x: AgentId)
    requires CreatedOk(s) == true && IdsApart(s) == true && sid in s.created
    requires IsParty(s, x, s.created[sid].session.controlledId)
    ensures IsDevice(s, x, s.created[sid].session.controlledId) == true && SessionWellFormed(s.created[sid].session)
  {
    assert CreationOk(s, sid);
    var source := s.created[sid].source;
    assert !s.agents[source].web && s.agents[source].id == s.agents[x].id;
  }

  lemma InputEnvelope(s: State, i: nat)
    requires LogOk(s) && i < |s.mail.log| && IsInput(s.mail.log[i].envelope.kind)
    ensures var m := s.mail.log[i]; var e := m.envelope;
      && e.sessionId in s.created
      && var session := s.created[e.sessionId].session;
      && session.inputAllowed && IsParty(s, m.to, session.controlledId) && e.to == session.controlledId
      && IsParty(s, m.source, session.controllerId) && e.from == session.controllerId
      && 0 < m.index <= |s.agents[m.source].inbox| && e == Stamped(s.agents[m.source].inbox[m.index - 1], e.from, e.to)
  {
    assert SentOk(s, s.mail.log[i]);
  }

  lemma InputMail(s: State, i: nat)
    requires LogOk(s) == true && CreatedOk(s) == true && IdsApart(s) == true
    requires i < |s.mail.log| && IsInput(s.mail.log[i].envelope.kind)
    ensures AuthorizedInput(s, s.mail.log[i]) == true
  {
    var m := s.mail.log[i];
    InputEnvelope(s, i);
    ControlledIsDevice(s, m.envelope.sessionId, m.to);
    assert Took(s, m.source, m.index, s.agents[m.source].inbox[m.index - 1]);
  }

  /** `m` goes from one end of its session to the other. */
  predicate BetweenTheEnds(s: State, m: Sent) {
    && m.envelope.sessionId in s.created
    && var session := s.created[m.envelope.sessionId].session;
    && IsParty(s, m.source, m.envelope.from) && IsParty(s, m.to, m.envelope.to)
    && {m.envelope.from, m.envelope.to} == {session.controllerId, session.controlledId}
  }

  /** Frames, telemetry, input and stream control only travel between the two
      ends of their session, which was stored while the relay handled them, and to
      a connection that the relay listed then. */
  lemma TrafficStaysInSession(cfg: Config, states: seq<State>, events: seq<Event>, n: nat, i: nat)
    requires IsRun(cfg, states, events) && n < |states|
    requires i < |states[n].mail.log| && IsSessionTraffic(states[n].mail.log[i].envelope.kind)
    ensures BetweenTheEnds(states[n], states[n].mail.log[i])
    ensures WasStored(states, n, i) && HeldItsSeat(states, n, i)
  {
    RunsKeepInvariant(cfg, states, events, n);
    TrafficMail(states[n], i);
    ServedWhileStored(cfg, states, events, n, i);
  }

  lemma TrafficMail(s: State, i: nat)
    requires LogOk(s) == true && i < |s.mail.log| && IsSessionTraffic(s.mail.log[i].envelope.kind)
    ensures BetweenTheEnds(s, s.mail.log[i]) == true
  {
    assert SentOk(s, s.mail.log[i]);
  }

  // --------------------------------------------------- authorization provenance

  /** The session stems from an accepted confirm that a connection with the id of
      its controlled device sent, answering its controller.  Its mode is that of
      the request the confirm consumed, if there was one, and the accepted mode
      otherwise; input needs the confirm to carry it. */
  predicate Stems(s: State, c: Creation) {
    && IsDevice(s, c.source, c.session.controlledId)
    && TookConfirm(s, c.source, c.index, c.session.controllerId, c.confirm) && c.confirm.accepted
    && (c.session.inputAllowed ==> c.confirm.confirmInput && c.session.mode == MODE_VIEW_CONTROL)
    && (c.consumed.None? ==> c.session.mode == NormalizeMode(c.confirm.acceptedMode))
    && (c.consumed.Some? ==>
          && c.consumed.value < |s.requests|
          && c.session.mode == s.requests[c.consumed.value].request.mode)
  }

  /** Every session ever created stems from a confirm. */
  lemma Provenance(cfg: Config, states: seq<State>, events: seq<Event>, n: nat, sid: string)
    requires IsRun(cfg, states, events) && n < |states| && sid in states[n].created
    ensures Stems(states[n], states[n].created[sid])
  {
    RunsKeepInvariant(cfg, states, events, n);
    CreatedProvenance(states[n], sid);
  }

  lemma CreatedProvenance(s: State, sid: string)
    requires CreatedOk(s) && RequestsOk(s) && sid in s.created
    ensures Stems(s, s.created[sid]) == true
  {
    assert CreationOk(s, sid);
  }

  /** Neither id of the session contains the separator of the pending table's keys. */
  predicate NulFreeIds(session: Session) {
    PendingMap.NulFree(session.controllerId) && PendingMap.NulFree(session.controlledId)
  }

  /** The request the session consumed was made by its controller for its
      controlled device. */
  predicate OfThePair(s: State, c: Creation) {
    && c.consumed.Some? && c.consumed.value < |s.requests|
    && var stored := s.requests[c.consumed.value];
    && stored.request.controllerId == c.session.controllerId
    && stored.request.controlledId == c.session.controlledId
    && IsParty(s, stored.source, c.session.controllerId)
  }

  /** If the session's own ids are NUL-free, the request it consumed was that of its
      own pair. */
  lemma ConsumedRequestOfThePair(cfg: Config, states: seq<State>, events: seq<Event>, n: nat, sid: string)
    requires IsRun(cfg, states, events) && n < |states| && sid in states[n].created
    requires states[n].created[sid].consumed.Some? && NulFreeIds(states[n].created[sid].session)
    ensures OfThePair(states[n], states[n].created[sid])
  {
    RunsKeepInvariant(cfg, states, events, n);
    ConsumedPair(states[n], sid);
  }

  lemma ConsumedPair(s: State, sid: string)
    requires CreatedOk(s) && RequestsOk(s) && sid in s.created && s.created[sid].consumed.Some? && NulFreeIds(s.created[sid].session)
    ensures OfThePair(s, s.created[sid]) == true
  {
    var c := s.created[sid];
    assert CreationOk(s, sid);
    PendingMap.KeyDeterminesPairIff(c.session.controllerId, c.session.controlledId);
  }

  /** A confirm makes at most one session, and no request is used for two. */
  lemma NothingAuthorizesTwice(cfg: Config, states: seq<State>, events: seq<Event>, n: nat, x: string, y: string)
    requires IsRun(cfg, states, events) && n < |states|
    requires x in states[n].created && y in states[n].created
    ensures var s := states[n];
      && (s.created[x].source == s.created[y].source && s.created[x].index == s.created[y].index ==> x == y)
      && (s.created[x].consumed.Some? && s.created[x].consumed == s.created[y].consumed ==> x == y)
  {
    RunsKeepInvariant(cfg, states, events, n);
    OneEachOf(states[n], x, y);
  }

  lemma OneEachOf(s: State, x: string, y: string)
    requires CreatedOk(s) && x in s.created && y in s.created
    ensures s.created[x].source == s.created[y].source && s.created[x].index == s.created[y].index ==> x == y
    ensures s.created[x].consumed.Some? && s.created[x].consumed == s.created[y].consumed ==> x == y
  {
    assert OneEach(s);
  }

  // ------------------------------------------------------------ ordered delivery

  /** What the write loop of `x` has written, in order. */
  function Written(mail: Mail, x: AgentId): seq<Sent>
    requires BoxesOk(mail)
  {
    var box := BoxOf(mail, x);
    seq(box.written, i requires 0 <= i < box.written => mail.log[box.picked[i]])
  }

  /** Positions of the envelopes a queue accepted, in the order of acceptance. */
  function Accepted(mail: Mail, x: AgentId): seq<nat> {
    BoxOf(mail, x).picked
  }

  /** For every recipient the envelopes written are the first of those its
      queue accepted, those are a subsequence of the ones offered to it, no
      more than 128 wait, and what any one sender forwards arrives in the order
      it was submitted, possibly with gaps. */
  predicate DeliversInOrder(mail: Mail, x: AgentId)
    requires BoxesOk(mail)
  {
    var picked, written := Accepted(mail, x), Written(mail, x);
    && |written| <= |picked| <= |written| + QUEUE_CAPACITY
    && (forall i :: 0 <= i < |picked| ==> picked[i] < |mail.log| && mail.log[picked[i]].to == x)
    && (forall i, j :: 0 <= i < j < |picked| ==> picked[i] < picked[j])
    && (forall i :: 0 <= i < |written| ==> written[i] == mail.log[picked[i]])
    && (forall i, j ::
          (0 <= i < j < |written| && written[i].source == written[j].source
           && IsSessionTraffic(written[i].envelope.kind) && IsSessionTraffic(written[j].envelope.kind)) ==>
          written[i].index < written[j].index)
  }

  lemma OrderedDelivery(cfg: Config, states: seq<State>, events: seq<Event>, n: nat, x: AgentId)
    requires IsRun(cfg, states, events) && n < |states|
    ensures BoxesOk(states[n].mail) && DeliversInOrder(states[n].mail, x)
  {
    RunsKeepInvariant(cfg, states, events, n);
    DeliveryInState(states[n], x);
  }

  lemma DeliveryInState(s: State, x: AgentId)
    requires BoxesOk(s.mail) && InOrder(s)
    ensures DeliversInOrder(s.mail, x)
  {
    if x in s.mail.boxes { assert BoxOk(s.mail, x, s.mail.boxes[x]); }
    var picked := Accepted(s.mail, x);
    forall i, j |
      0 <= i < j < |Written(s.mail, x)| && Written(s.mail, x)[i].source == Written(s.mail, x)[j].source
      && IsSessionTraffic(Written(s.mail, x)[i].envelope.kind)
      && IsSessionTraffic(Written(s.mail, x)[j].envelope.kind)
      ensures Written(s.mail, x)[i].index < Written(s.mail, x)[j].index
    {
      assert picked[i] < picked[j];
    }
  }

  // ---------------------------------------------------------------- whole states

  /** Endpoints, permissions and capacity in every reachable state. */
  lemma RegistrySafety(cfg: Config, states: seq<State>, events: seq<Event>, n: nat)
    requires IsRun(cfg, states, events) && n < |states|
    ensures EndpointsOnline(states[n].tables) && WithinCapacity(states[n].tables, states[n].cfg.maxClients)
    ensures forall id :: id in states[n].tables.clients ==> IsDevice(states[n], states[n].tables.clients[id], id)
  {
    RunsKeepInvariant(cfg, states, events, n);
  }
}
