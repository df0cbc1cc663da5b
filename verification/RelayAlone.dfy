/** What a handler does that runs without interruption.  The theorems about runs say
    what the relay never does; these say what it does do: for each kind of message,
    from any state, what comes of it when nobody else moves before its handler is
    done. */
module RelayAlone {
  import opened Protocol
  import opened Registry
  import opened RelaySystem
  import opened RelaySteps
  import opened RelayRuns
  import opened RelayMoves
  import AuthCode
  import PendingMap
  import WebShares

  // ------------------------------------------------------------- section by section

  /** Number `i` of the sections that the handler of `a` runs. */
  predicate Section(states: seq<State>, a: AgentId, cs: seq<Choice>, i: nat) {
    && i + 1 < |states| && i < |cs| && a in states[i].agents && Runnable(states[i], a, cs[i])
    && states[i + 1] == Run(states[i], a, cs[i])
  }

  /** From `s` to `s'` by sections of `a` alone, as many as there are choices for. */
  predicate IsPath(states: seq<State>, s: State, a: AgentId, cs: seq<Choice>, s': State) {
    && 0 < |states| <= |cs| + 1 && states[0] == s && states[|states| - 1] == s'
    && forall i :: 0 <= i < |states| - 1 ==> Section(states, a, cs, i)
  }

  ghost predicate Leads(s: State, a: AgentId, cs: seq<Choice>, s': State) {
    exists states :: IsPath(states, s, a, cs, s')
  }

  lemma LeadsNowhere(s: State, a: AgentId, cs: seq<Choice>)
    ensures Leads(s, a, cs, s) == true
  {
    assert IsPath([s], s, a, cs, s);
  }

  lemma LeadsOn(s: State, a: AgentId, cs: seq<Choice>, s1: State, s': State)
    requires a in s.agents && cs != [] && Runnable(s, a, cs[0]) == true && Run(s, a, cs[0]) == s1
    requires Leads(s1, a, cs[1..], s') == true
    ensures Leads(s, a, cs, s') == true
  {
    var states :| IsPath(states, s1, a, cs[1..], s');
    var more := [s] + states;
    forall i | 0 <= i < |more| - 1 ensures Section(more, a, cs, i) {
      if i > 0 { assert Section(states, a, cs[1..], i - 1); }
    }
    assert IsPath(more, s, a, cs, s');
  }

  /** Where an idle handler has got to is determined by its choices. */
  lemma OneOutcome(s: State, a: AgentId, cs: seq<Choice>, s': State, s'': State)
    requires Leads(s, a, cs, s') && a in s'.agents && s'.agents[a].pc.Idle?
    requires Leads(s, a, cs, s'') && a in s''.agents && s''.agents[a].pc.Idle?
    ensures s' == s''
  {
    var first :| IsPath(first, s, a, cs, s');
    var second :| IsPath(second, s, a, cs, s'');
    SamePath(first, second, s, a, cs, s', s'', |first| - 1);
    SamePath(second, first, s, a, cs, s'', s', |second| - 1);
  }

  lemma {:induction false} SamePath(first: seq<State>, second: seq<State>, s: State, a: AgentId, cs: seq<Choice>,
                                    s': State, s'': State, k: nat)
    requires IsPath(first, s, a, cs, s') && IsPath(second, s, a, cs, s'') && k < |first|
    requires a in s''.agents && s''.agents[a].pc.Idle?
    ensures k < |second| && second[k] == first[k]
  {
    if k > 0 {
      SamePath(first, second, s, a, cs, s', s'', k - 1);
      assert Section(first, a, cs, k - 1);
      if k < |second| { assert Section(second, a, cs, k - 1); }
    }
  }

  function Proceeds(a: AgentId, cs: seq<Choice>, n: nat): seq<Event>
    requires n <= |cs|
  {
    seq(n, i requires 0 <= i < n => Proceed(a, cs[i]))
  }

  /** What a handler comes to by itself, it comes to in some run: any run whose last
      state lets `a` take `msg` goes on to the outcome, with nothing in between but the
      sections of `a`. */
  lemma AloneInRuns(cfg: Config, states: seq<State>, events: seq<Event>, a: AgentId, msg: Envelope, now: int,
                    cs: seq<Choice>, s': State) returns (states': seq<State>, k: nat)
    requires IsRun(cfg, states, events) && Enabled(states[|events|], Recv(a, msg, now))
    requires Leads(Receive(states[|events|], a, msg, now), a, cs, s')
    ensures k <= |cs| && IsRun(cfg, states', events + [Recv(a, msg, now)] + Proceeds(a, cs, k))
    ensures states <= states' && states'[|states'| - 1] == s'
  {
    var path :| IsPath(path, Receive(states[|events|], a, msg, now), a, cs, s');
    k, states' := |path| - 1, states + path;
    SectionsGo(path, a, cs, Receive(states[|events|], a, msg, now), s');
    RunGoes(cfg, states, events);
    GoesOn(states, events, Recv(a, msg, now), path, Proceeds(a, cs, k));
    RunGoes(cfg, states', events + [Recv(a, msg, now)] + Proceeds(a, cs, k));
  }

  ghost predicate Happens(s: State, e: Event, s': State) {
    Enabled(s, e) && s' == Apply(s, e)
  }

  ghost predicate Goes(states: seq<State>, events: seq<Event>) {
    |states| == |events| + 1 && forall i :: 0 <= i < |events| ==> Happens(states[i], events[i], states[i + 1])
  }

  lemma RunGoes(cfg: Config, states: seq<State>, events: seq<Event>)
    ensures IsRun(cfg, states, events) <==> Goes(states, events) && states[0] == Initial(cfg)
  {
    if Goes(states, events) {
      forall i | 0 <= i < |events| ensures Enabled(states[i], events[i]) && states[i + 1] == Apply(states[i], events[i]) {
        assert Happens(states[i], events[i], states[i + 1]);
      }
    }
  }

  lemma GoesOn(states: seq<State>, events: seq<Event>, e: Event, path: seq<State>, more: seq<Event>)
    requires Goes(states, events) && Goes(path, more) && Happens(states[|events|], e, path[0])
    ensures Goes(states + path, events + [e] + more)
  {
    var states', events' := states + path, events + [e] + more;
    forall i | 0 <= i < |events'| ensures Happens(states'[i], events'[i], states'[i + 1]) == true {
      if i < |events| {
        assert Happens(states[i], events[i], states[i + 1]);
      } else if i > |events| {
        assert Happens(path[i - |states|], more[i - |states|], path[i - |states| + 1]);
      }
    }
  }

  lemma SectionsGo(path: seq<State>, a: AgentId, cs: seq<Choice>, s: State, s': State)
    requires IsPath(path, s, a, cs, s')
    ensures Goes(path, Proceeds(a, cs, |path| - 1))
  {
    forall i | 0 <= i < |path| - 1 ensures Happens(path[i], Proceeds(a, cs, |path| - 1)[i], path[i + 1]) == true {
      SectionHappens(path, a, cs, i);
    }
  }

  lemma SectionHappens(path: seq<State>, a: AgentId, cs: seq<Choice>, i: nat)
    requires Section(path, a, cs, i)
    ensures Happens(path[i], Proceed(a, cs[i]), path[i + 1]) == true
  {
  }

  /** `a` has taken `msg` and its handler stands at `pc`; nothing else is different. */
  function Heard(s: State, a: AgentId, msg: Envelope, pc: Pc): State
    requires a in s.agents
  {
    s.(agents := s.agents[a := s.agents[a].(pc := pc, inbox := s.agents[a].inbox + [msg])])
  }

  lemma Hears(s: State, a: AgentId, msg: Envelope, now: int, pc: Pc)
    requires a in s.agents && msg.kind != DeviceRegister && msg.kind != AuthCodePublish
    requires Entry(s.cfg, a, s.agents[a], msg) == pc
    ensures Receive(s, a, msg, now) == Heard(s, a, msg, pc)
  {
  }

  lemma Looks(s: State, a: AgentId, msg: Envelope, pc: Pc, onward: Pc, cs: seq<Choice>, s': State)
    requires a in s.agents && cs != [] && IsLookup(pc) && !pc.ClosingOther?
    requires Looked(s.tables, a, Heard(s, a, msg, pc).agents[a]) == onward
    requires Leads(Heard(s, a, msg, onward), a, cs[1..], s') == true
    ensures Leads(Heard(s, a, msg, pc), a, cs, s') == true
  {
    var s1 := Heard(s, a, msg, pc);
    RunsLookup(s1, a, cs[0]);
    assert Goto(s1, a, onward) == Heard(s, a, msg, onward);
    LeadsOn(s1, a, cs, Heard(s, a, msg, onward), s');
  }

  lemma Offers(s: State, a: AgentId, cs: seq<Choice>, s': State)
    requires a in s.agents && cs != [] && s.agents[a].pc.Offer?
    requires var pc := s.agents[a].pc; Leads(Offered(s, a, pc.target, pc.envelope, pc.next, cs[0].coins), a, cs[1..], s') == true
    ensures Leads(s, a, cs, s') == true
  {
    RunsOffer(s, a, cs[0]);
    var pc := s.agents[a].pc;
    LeadsOn(s, a, cs, Offered(s, a, pc.target, pc.envelope, pc.next, cs[0].coins), s');
  }

  // ----------------------------------------------------------------- the outcome

  /** The error reply to the message just taken. */
  function Refusal(s: State, a: AgentId): Sent
    requires a in s.agents
  {
    Sent(a, Envelope(ErrorReply, "", RELAY, s.agents[a].id, Note("message_failed")), a, |s.agents[a].inbox| + 1)
  }

  /** Offered by `a` beside its messages. */
  function Aside(s: State, a: AgentId, x: AgentId, e: Envelope): Sent
    requires a in s.agents
  {
    Sent(x, e, a, |s.agents[a].inbox|)
  }

  function ErrorFor(agent: Agent): Envelope {
    Envelope(ErrorReply, "", RELAY, agent.id, Note("message_failed"))
  }

  /** What `a` offers while it handles the message just taken. */
  function Own(s: State, a: AgentId, x: AgentId, e: Envelope): Sent
    requires a in s.agents
  {
    Sent(x, e, a, |s.agents[a].inbox| + 1)
  }

  /** `a` has taken `msg`, its handler is done, and nobody else has moved. */
  predicate Done(s: State, s': State, a: AgentId, msg: Envelope) {
    && a in s.agents && s'.cfg == s.cfg
    && s'.agents == s.agents[a := s.agents[a].(inbox := s.agents[a].inbox + [msg])]
  }

  /** The message came to nothing but an error reply. */
  predicate Refused(s: State, s': State, a: AgentId, msg: Envelope) {
    && Done(s, s', a, msg)
    && s' == s.(agents := s'.agents, mail := s'.mail)
    && s'.mail.log == s.mail.log + [Refusal(s, a)]
  }

  /** The connection is open and its queue has room. */
  predicate HasPlace(s: State, x: AgentId) {
    && x in s.agents && s.agents[x].phase == Open
    && (x in s.mail.boxes ==> |s.mail.boxes[x].picked| - s.mail.boxes[x].written < 128)
  }

  /** A full queue takes nothing; one with room takes whatever is offered to an open
      connection; offered to a closed one, both outcomes are possible. */
  lemma QueueTakes(s: State, x: AgentId)
    ensures var full := |BoxOf(s.mail, x).picked| - BoxOf(s.mail, x).written >= 128;
      var open := x in s.agents && s.agents[x].phase == Open;
      && (full ==> forall coins :: !Accepts(s.agents, s.mail, x, coins))
      && (!full && open ==> forall coins :: Accepts(s.agents, s.mail, x, coins))
      && (!full && !open ==>
            (exists coins :: Accepts(s.agents, s.mail, x, coins)) && (exists coins :: !Accepts(s.agents, s.mail, x, coins)))
  {
    assert Accepts(s.agents, s.mail, x, {|s.mail.log|}) == HasRoom(BoxOf(s.mail, x));
    assert x !in s.agents || s.agents[x].phase != Open ==> !Accepts(s.agents, s.mail, x, {});
  }

  /** `m` was offered; it was queued if there was place, and if its queue did not
      take it, an error reply followed. */
  predicate OfferedOnce(s: State, s': State, a: AgentId, m: Sent)
    requires a in s.agents
  {
    && (|| (s'.mail.log == s.mail.log + [m] && m.to in s'.mail.boxes
            && s'.mail.boxes[m.to].picked == BoxOf(s.mail, m.to).picked + [|s.mail.log|])
        || (s'.mail.log == s.mail.log + [m, Refusal(s, a)]))
    && (HasPlace(s, m.to) ==> s'.mail.log == s.mail.log + [m])
  }

  /** An idle agent that has taken a message refuses it. */
  lemma Refuses(s: State, a: AgentId, msg: Envelope, cs: seq<Choice>) returns (s': State)
    requires a in s.agents && s.agents[a].pc.Idle? && cs != []
    ensures Leads(Heard(s, a, msg, Failing(a, s.agents[a])), a, cs, s') == true && Refused(s, s', a, msg) == true
  {
    var s1 := Heard(s, a, msg, Failing(a, s.agents[a]));
    s' := Offered(s1, a, a, ErrorEnvelope(s.agents[a].id), Finish, cs[0].coins);
    LeadsNowhere(s', a, cs[1..]);
    Offers(s1, a, cs, s');
    assert s'.agents == s.agents[a := s.agents[a].(inbox := s.agents[a].inbox + [msg])];
  }

  /** An error reply after an envelope that its queue refused. */
  lemma RefusesAfter(s: State, a: AgentId, cs: seq<Choice>) returns (s': State)
    requires a in s.agents && cs != [] && s.agents[a].pc == Failing(a, s.agents[a])
    ensures Leads(s, a, cs, s') == true
    ensures s' == s.(agents := s.agents[a := s.agents[a].(pc := Idle)], mail := s'.mail)
    ensures s'.mail.log == s.mail.log + [Sent(a, ErrorEnvelope(s.agents[a].id), a, |s.agents[a].inbox|)]
    ensures forall y :: y != a ==> BoxOf(s'.mail, y) == BoxOf(s.mail, y)
  {
    s' := Offered(s, a, a, ErrorEnvelope(s.agents[a].id), Finish, cs[0].coins);
    LeadsNowhere(s', a, cs[1..]);
    Offers(s, a, cs, s');
  }

  /** One envelope is offered, and an error reply follows if it was refused. */
  lemma OffersAndReports(s: State, a: AgentId, x: AgentId, e: Envelope, cs: seq<Choice>) returns (s': State)
    requires a in s.agents && |cs| >= 2 && s.agents[a].pc == Offer(x, e, Report)
    ensures Leads(s, a, cs, s') == true
    ensures s' == s.(agents := s.agents[a := s.agents[a].(pc := Idle)], mail := s'.mail)
    ensures var m := Sent(x, e, a, |s.agents[a].inbox|);
      if Accepts(s.agents, s.mail, x, cs[0].coins)
      then s'.mail == Post(s.agents, s.mail, m, cs[0].coins)
      else s'.mail.log == s.mail.log + [m] + [Sent(a, ErrorEnvelope(s.agents[a].id), a, |s.agents[a].inbox|)]
           && forall y :: y != a ==> BoxOf(s'.mail, y) == BoxOf(s.mail, y)
  {
    var s1 := Offered(s, a, x, e, Report, cs[0].coins);
    if Accepts(s.agents, s.mail, x, cs[0].coins) {
      s' := s1;
      LeadsNowhere(s', a, cs[1..]);
    } else {
      s' := RefusesAfter(s1, a, cs[1..]);
      assert s1.agents[a := s1.agents[a].(pc := Idle)] == s.agents[a := s.agents[a].(pc := Idle)];
    }
    Offers(s, a, cs, s');
  }

  // --------------------------------------------------- frames, telemetry, controls

  /** The relay forwards `msg` of the sender with id `id` to id `to`: the session it
      names is stored, the sender is its controller, with input allowed for mouse and
      keyboard events, or a device that is its controlled end and sends frames or
      telemetry; and `to`, the other end, is listed. */
  predicate Passes(t: RelayTables, id: string, web: bool, msg: Envelope, to: string) {
    && msg.sessionId in t.sessions
    && var session := t.sessions[msg.sessionId];
    && (to in t.clients || (!web && to in t.webPeers))
    && (|| (id == session.controllerId && to == session.controlledId
            && ((msg.kind == InputMouse || msg.kind == InputKeyboard) ==> session.inputAllowed)
            && (web ==> msg.kind == InputMouse || msg.kind == InputKeyboard || msg.kind == StreamControl))
        || (id == session.controlledId != session.controllerId && to == session.controllerId && !web
            && (msg.kind == StreamFrame || msg.kind == TelemetryStats)))
  }

  /** Whom the tables list under `id`, a device before a visitor. */
  function ListedAs(t: RelayTables, id: string): AgentId
    requires id in t.clients || id in t.webPeers
  {
    if id in t.clients then t.clients[id] else t.webPeers[id]
  }

  /** `msg` was passed on to `to`, with only From and To restamped; its session's
      time of activity is all that has changed in the tables. */
  ghost predicate PassedOn(s: State, s': State, a: AgentId, msg: Envelope, to: string)
    requires a in s.agents && msg.sessionId in s.tables.sessions && (to in s.tables.clients || to in s.tables.webPeers)
  {
    && Done(s, s', a, msg)
    && s' == s.(agents := s'.agents, mail := s'.mail, tables := s'.tables)
    && (exists now :: s'.tables == s.tables.(
          sessions := s.tables.sessions[msg.sessionId := s.tables.sessions[msg.sessionId].(lastActivityAt := now)]))
    && OfferedOnce(s, s', a, Own(s, a, ListedAs(s.tables, to), msg.(from := s.agents[a].id, to := to)))
  }

  lemma Touches(s: State, a: AgentId, msg: Envelope, x: AgentId, e: Envelope, cs: seq<Choice>, s': State)
    requires a in s.agents && cs != [] && e.sessionId == msg.sessionId
    requires Leads(Heard(s.(tables := Touch(s.tables, msg.sessionId, cs[0].now)), a, msg, Offer(x, e, Report)), a, cs[1..], s') == true
    ensures Leads(Heard(s, a, msg, FwdTouch(x, e)), a, cs, s') == true
  {
    var s1 := Heard(s, a, msg, FwdTouch(x, e));
    var touched := s.(tables := Touch(s.tables, msg.sessionId, cs[0].now));
    RunsOffer(s1, a, cs[0]);
    assert Touching(s1, a, x, e, cs[0].now) == Heard(touched, a, msg, Offer(x, e, Report));
    LeadsOn(s1, a, cs, Heard(touched, a, msg, Offer(x, e, Report)), s');
  }

  lemma OfferedOnceOf(s: State, s1: State, s': State, a: AgentId, m: Sent, coins: set<nat>)
    requires a in s.agents && s1.mail == s.mail && s1.agents.Keys == s.agents.Keys
    requires forall x :: x in s.agents ==> s1.agents[x].phase == s.agents[x].phase
    requires if Accepts(s1.agents, s1.mail, m.to, coins) then s'.mail == Post(s1.agents, s1.mail, m, coins)
             else s'.mail.log == s.mail.log + [m] + [Refusal(s, a)]
    ensures OfferedOnce(s, s', a, m) == true
  {
    assert s.mail.log + [m] + [Refusal(s, a)] == s.mail.log + [m, Refusal(s, a)];
  }

  lemma PassedOnBy(s: State, s': State, a: AgentId, msg: Envelope, to: string, now: int)
    requires a in s.agents && msg.sessionId in s.tables.sessions && (to in s.tables.clients || to in s.tables.webPeers)
    requires s'.agents == s.agents[a := s.agents[a].(inbox := s.agents[a].inbox + [msg])]
    requires s' == s.(agents := s'.agents, mail := s'.mail, tables := Touch(s.tables, msg.sessionId, now))
    requires OfferedOnce(s, s', a, Own(s, a, ListedAs(s.tables, to), msg.(from := s.agents[a].id, to := to))) == true
    ensures PassedOn(s, s', a, msg, to) == true
  {
    assert s'.tables == s.tables.(
      sessions := s.tables.sessions[msg.sessionId := s.tables.sessions[msg.sessionId].(lastActivityAt := now)]);
  }

  lemma TouchedAndPassed(s: State, s1: State, s': State, a: AgentId, msg: Envelope, to: string, now: int, coins: set<nat>)
    requires a in s.agents && s.agents[a].pc.Idle? && msg.sessionId in s.tables.sessions
    requires to in s.tables.clients || to in s.tables.webPeers
    requires var x, e := ListedAs(s.tables, to), msg.(from := s.agents[a].id, to := to);
      && s1 == Heard(s.(tables := Touch(s.tables, msg.sessionId, now)), a, msg, Offer(x, e, Report))
      && s' == s1.(agents := s1.agents[a := s1.agents[a].(pc := Idle)], mail := s'.mail)
      && var m := Sent(x, e, a, |s1.agents[a].inbox|);
      if Accepts(s1.agents, s1.mail, x, coins) then s'.mail == Post(s1.agents, s1.mail, m, coins)
      else s'.mail.log == s1.mail.log + [m] + [Sent(a, ErrorEnvelope(s1.agents[a].id), a, |s1.agents[a].inbox|)]
    ensures PassedOn(s, s', a, msg, to) == true
  {
    var x, e := ListedAs(s.tables, to), msg.(from := s.agents[a].id, to := to);
    OfferedOnceOf(s, s1, s', a, Own(s, a, x, e), coins);
    assert s'.agents == s.agents[a := s.agents[a].(inbox := s.agents[a].inbox + [msg])];
    PassedOnBy(s, s', a, msg, to, now);
  }

  lemma TouchesAndPasses(s: State, a: AgentId, msg: Envelope, to: string, cs: seq<Choice>) returns (s': State)
    requires a in s.agents && s.agents[a].pc.Idle? && |cs| >= 3 && msg.sessionId in s.tables.sessions
    requires to in s.tables.clients || to in s.tables.webPeers
    ensures Leads(Heard(s, a, msg, FwdTouch(ListedAs(s.tables, to), msg.(from := s.agents[a].id, to := to))), a, cs, s') == true
    ensures PassedOn(s, s', a, msg, to) == true
  {
    var e, x := msg.(from := s.agents[a].id, to := to), ListedAs(s.tables, to);
    var s1 := Heard(s.(tables := Touch(s.tables, msg.sessionId, cs[0].now)), a, msg, Offer(x, e, Report));
    s' := OffersAndReports(s1, a, x, e, cs[1..]);
    Touches(s, a, msg, x, e, cs, s');
    TouchedAndPassed(s, s1, s', a, msg, to, cs[0].now, cs[1..][0].coins);
  }

  // The lookups on the way, one by one.

  lemma GuardStops(s: State, a: AgentId, msg: Envelope, cs: seq<Choice>) returns (s': State)
    requires a in s.agents && s.agents[a].pc.Idle? && |cs| >= 2
    requires !(msg.sessionId in s.tables.sessions && s.tables.sessions[msg.sessionId].controllerId == s.agents[a].id
               && (IsInput(msg.kind) ==> s.tables.sessions[msg.sessionId].inputAllowed))
    ensures Leads(Heard(s, a, msg, FwdGuard(msg)), a, cs, s') == true && Refused(s, s', a, msg) == true
  {
    s' := Refuses(s, a, msg, cs[1..]);
    Looks(s, a, msg, FwdGuard(msg), Failing(a, s.agents[a]), cs, s');
  }

  lemma GuardLets(s: State, a: AgentId, msg: Envelope, cs: seq<Choice>, s': State)
    requires a in s.agents && cs != [] && msg.sessionId in s.tables.sessions
    requires s.tables.sessions[msg.sessionId].controllerId == s.agents[a].id
    requires IsInput(msg.kind) ==> s.tables.sessions[msg.sessionId].inputAllowed
    requires var e := msg.(from := s.agents[a].id, to := s.tables.sessions[msg.sessionId].controlledId);
      Leads(Heard(s, a, msg, if s.agents[a].web then FwdClient(e) else FwdRead(msg)), a, cs[1..], s') == true
    ensures Leads(Heard(s, a, msg, FwdGuard(msg)), a, cs, s') == true
  {
    var e := msg.(from := s.agents[a].id, to := s.tables.sessions[msg.sessionId].controlledId);
    Looks(s, a, msg, FwdGuard(msg), if s.agents[a].web then FwdClient(e) else FwdRead(msg), cs, s');
  }

  lemma ReadStops(s: State, a: AgentId, msg: Envelope, cs: seq<Choice>) returns (s': State)
    requires a in s.agents && s.agents[a].pc.Idle? && |cs| >= 2
    requires !(msg.sessionId in s.tables.sessions && Names(s.tables.sessions[msg.sessionId], s.agents[a].id))
    ensures Leads(Heard(s, a, msg, FwdRead(msg)), a, cs, s') == true && Refused(s, s', a, msg) == true
  {
    s' := Refuses(s, a, msg, cs[1..]);
    Looks(s, a, msg, FwdRead(msg), Failing(a, s.agents[a]), cs, s');
  }

  lemma ReadDirects(s: State, a: AgentId, msg: Envelope, cs: seq<Choice>, s': State)
    requires a in s.agents && cs != [] && msg.sessionId in s.tables.sessions
    requires Names(s.tables.sessions[msg.sessionId], s.agents[a].id)
    requires var e := msg.(from := s.agents[a].id, to := Opposite(s.tables, s.agents[a].id, msg));
      Leads(Heard(s, a, msg, FwdClient(e)), a, cs[1..], s') == true
    ensures Leads(Heard(s, a, msg, FwdRead(msg)), a, cs, s') == true
  {
    var e := msg.(from := s.agents[a].id, to := Opposite(s.tables, s.agents[a].id, msg));
    Looks(s, a, msg, FwdRead(msg), FwdClient(e), cs, s');
  }

  lemma ClientFound(s: State, a: AgentId, msg: Envelope, e: Envelope, cs: seq<Choice>, s': State)
    requires a in s.agents && cs != [] && e.to in s.tables.clients
    requires Leads(Heard(s, a, msg, FwdTouch(s.tables.clients[e.to], e)), a, cs[1..], s') == true
    ensures Leads(Heard(s, a, msg, FwdClient(e)), a, cs, s') == true
  {
    Looks(s, a, msg, FwdClient(e), FwdTouch(s.tables.clients[e.to], e), cs, s');
  }

  lemma NoClientForVisitor(s: State, a: AgentId, msg: Envelope, e: Envelope, cs: seq<Choice>) returns (s': State)
    requires a in s.agents && s.agents[a].pc.Idle? && |cs| >= 2 && e.to !in s.tables.clients && s.agents[a].web
    ensures Leads(Heard(s, a, msg, FwdClient(e)), a, cs, s') == true && Refused(s, s', a, msg) == true
  {
    s' := Refuses(s, a, msg, cs[1..]);
    Looks(s, a, msg, FwdClient(e), Failing(a, s.agents[a]), cs, s');
  }

  lemma NoClientYet(s: State, a: AgentId, msg: Envelope, e: Envelope, cs: seq<Choice>, s': State)
    requires a in s.agents && cs != [] && e.to !in s.tables.clients && !s.agents[a].web
    requires Leads(Heard(s, a, msg, FwdWeb(e)), a, cs[1..], s') == true
    ensures Leads(Heard(s, a, msg, FwdClient(e)), a, cs, s') == true
  {
    Looks(s, a, msg, FwdClient(e), FwdWeb(e), cs, s');
  }

  lemma VisitorFound(s: State, a: AgentId, msg: Envelope, e: Envelope, cs: seq<Choice>, s': State)
    requires a in s.agents && cs != [] && e.to in s.tables.webPeers
    requires Leads(Heard(s, a, msg, FwdTouch(s.tables.webPeers[e.to], e)), a, cs[1..], s') == true
    ensures Leads(Heard(s, a, msg, FwdWeb(e)), a, cs, s') == true
  {
    Looks(s, a, msg, FwdWeb(e), FwdTouch(s.tables.webPeers[e.to], e), cs, s');
  }

  lemma NobodyFound(s: State, a: AgentId, msg: Envelope, e: Envelope, cs: seq<Choice>) returns (s': State)
    requires a in s.agents && s.agents[a].pc.Idle? && |cs| >= 2 && e.to !in s.tables.webPeers
    ensures Leads(Heard(s, a, msg, FwdWeb(e)), a, cs, s') == true && Refused(s, s', a, msg) == true
  {
    s' := Refuses(s, a, msg, cs[1..]);
    Looks(s, a, msg, FwdWeb(e), Failing(a, s.agents[a]), cs, s');
  }

  lemma Reaches(s: State, a: AgentId, msg: Envelope, to: string, cs: seq<Choice>) returns (s': State)
    requires a in s.agents && s.agents[a].pc.Idle? && |cs| >= 5 && msg.sessionId in s.tables.sessions
    ensures Leads(Heard(s, a, msg, FwdClient(msg.(from := s.agents[a].id, to := to))), a, cs, s') == true
    ensures if to in s.tables.clients || (!s.agents[a].web && to in s.tables.webPeers) then PassedOn(s, s', a, msg, to) == true
            else Refused(s, s', a, msg) == true
  {
    var agent, e := s.agents[a], msg.(from := s.agents[a].id, to := to);
    if to in s.tables.clients {
      s' := TouchesAndPasses(s, a, msg, to, cs[1..]);
      ClientFound(s, a, msg, e, cs, s');
    } else if agent.web {
      s' := NoClientForVisitor(s, a, msg, e, cs);
    } else {
      s' := ReachesVisitor(s, a, msg, to, cs[1..]);
      NoClientYet(s, a, msg, e, cs, s');
    }
  }

  lemma ReachesVisitor(s: State, a: AgentId, msg: Envelope, to: string, cs: seq<Choice>) returns (s': State)
    requires a in s.agents && s.agents[a].pc.Idle? && |cs| >= 4 && msg.sessionId in s.tables.sessions
    requires to !in s.tables.clients
    ensures Leads(Heard(s, a, msg, FwdWeb(msg.(from := s.agents[a].id, to := to))), a, cs, s') == true
    ensures if to in s.tables.webPeers then PassedOn(s, s', a, msg, to) == true else Refused(s, s', a, msg) == true
  {
    var e := msg.(from := s.agents[a].id, to := to);
    if to in s.tables.webPeers {
      s' := TouchesAndPasses(s, a, msg, to, cs[1..]);
      VisitorFound(s, a, msg, e, cs, s');
    } else {
      s' := NobodyFound(s, a, msg, e, cs);
    }
  }

  /** Passed on to the one it may go to, refused if there is none. */
  ghost predicate PassedOrRefused(s: State, s': State, a: AgentId, msg: Envelope)
    requires a in s.agents
  {
    && (forall to :: Passes(s.tables, s.agents[a].id, s.agents[a].web, msg, to) ==> PassedOn(s, s', a, msg, to))
    && ((forall to :: !Passes(s.tables, s.agents[a].id, s.agents[a].web, msg, to)) ==> Refused(s, s', a, msg))
  }

  lemma OnlyTo(s: State, s': State, a: AgentId, msg: Envelope, to: string)
    requires a in s.agents
    requires forall x :: Passes(s.tables, s.agents[a].id, s.agents[a].web, msg, x) ==> x == to
    requires if Passes(s.tables, s.agents[a].id, s.agents[a].web, msg, to) then PassedOn(s, s', a, msg, to) == true
             else Refused(s, s', a, msg) == true
    ensures PassedOrRefused(s, s', a, msg) == true
  {
  }

  /** The other end of its session, for the sender of `msg`. */
  function Opposite(t: RelayTables, id: string, msg: Envelope): string {
    if msg.sessionId !in t.sessions then ""
    else if id == t.sessions[msg.sessionId].controllerId then t.sessions[msg.sessionId].controlledId
    else t.sessions[msg.sessionId].controllerId
  }

  lemma Directs(s: State, a: AgentId, msg: Envelope, cs: seq<Choice>) returns (s': State)
    requires a in s.agents && s.agents[a].pc.Idle? && !s.agents[a].web && |cs| >= 6 && IsSessionTraffic(msg.kind)
    requires ControllerOnly(msg.kind) ==>
               && msg.sessionId in s.tables.sessions && s.tables.sessions[msg.sessionId].controllerId == s.agents[a].id
               && (IsInput(msg.kind) ==> s.tables.sessions[msg.sessionId].inputAllowed)
    ensures Leads(Heard(s, a, msg, FwdRead(msg)), a, cs, s') == true && PassedOrRefused(s, s', a, msg) == true
  {
    var agent, to := s.agents[a], Opposite(s.tables, s.agents[a].id, msg);
    if msg.sessionId in s.tables.sessions && Names(s.tables.sessions[msg.sessionId], agent.id) {
      s' := Reaches(s, a, msg, to, cs[1..]);
      ReadDirects(s, a, msg, cs, s');
    } else {
      s' := ReadStops(s, a, msg, cs);
    }
    OnlyTo(s, s', a, msg, to);
  }

  lemma Guards(s: State, a: AgentId, msg: Envelope, cs: seq<Choice>) returns (s': State)
    requires a in s.agents && s.agents[a].pc.Idle? && |cs| >= 7 && ControllerOnly(msg.kind)
    ensures Leads(Heard(s, a, msg, FwdGuard(msg)), a, cs, s') == true && PassedOrRefused(s, s', a, msg) == true
  {
    var agent := s.agents[a];
    if msg.sessionId in s.tables.sessions && s.tables.sessions[msg.sessionId].controllerId == agent.id
       && (IsInput(msg.kind) ==> s.tables.sessions[msg.sessionId].inputAllowed) {
      s' := GuardPasses(s, a, msg, cs);
    } else {
      s' := GuardStops(s, a, msg, cs);
      OnlyTo(s, s', a, msg, "");
    }
  }

  lemma GuardPasses(s: State, a: AgentId, msg: Envelope, cs: seq<Choice>) returns (s': State)
    requires a in s.agents && s.agents[a].pc.Idle? && |cs| >= 7 && ControllerOnly(msg.kind)
    requires msg.sessionId in s.tables.sessions && s.tables.sessions[msg.sessionId].controllerId == s.agents[a].id
    requires IsInput(msg.kind) ==> s.tables.sessions[msg.sessionId].inputAllowed
    ensures Leads(Heard(s, a, msg, FwdGuard(msg)), a, cs, s') == true && PassedOrRefused(s, s', a, msg) == true
  {
    var agent, to := s.agents[a], s.tables.sessions[msg.sessionId].controlledId;
    if agent.web {
      s' := Reaches(s, a, msg, to, cs[1..]);
      OnlyTo(s, s', a, msg, to);
    } else {
      s' := Directs(s, a, msg, cs[1..]);
    }
    GuardLets(s, a, msg, cs, s');
  }

  /** Frames, telemetry, input and stream control, from any state: if the session is
      stored, the sender at an end of it from which this kind may come, and the
      other end listed, then the message is offered to the other end with only From
      and To restamped, and the session counts as active; in every other case the
      sender gets an error reply and nothing else happens. */
  lemma TrafficAlone(s: State, a: AgentId, msg: Envelope, now: int, cs: seq<Choice>) returns (s': State)
    requires a in s.agents && s.agents[a].pc.Idle? && |cs| >= 7
    requires msg.kind in {StreamFrame, TelemetryStats, StreamControl, InputMouse, InputKeyboard}
    ensures Leads(Receive(s, a, msg, now), a, cs, s')
    ensures forall to :: Passes(s.tables, s.agents[a].id, s.agents[a].web, msg, to) ==> PassedOn(s, s', a, msg, to)
    ensures (forall to :: !Passes(s.tables, s.agents[a].id, s.agents[a].web, msg, to)) ==> Refused(s, s', a, msg)
  {
    var agent := s.agents[a];
    if ControllerOnly(msg.kind) {
      Hears(s, a, msg, now, FwdGuard(msg));
      s' := Guards(s, a, msg, cs);
    } else if agent.web {
      Hears(s, a, msg, now, Failing(a, agent));
      s' := Refuses(s, a, msg, cs);
    } else {
      Hears(s, a, msg, now, FwdRead(msg));
      s' := Directs(s, a, msg, cs);
    }
  }
}
