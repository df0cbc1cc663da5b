/** Runs that show what the theorems do not exclude: a connection seated after its
    own tear-down, a hand-over that clears nothing, and what a connection that was
    refused for capacity can still send and end. */
module RelayScenes {
  import opened Protocol
  import opened Registry
  import opened RelaySystem
  import opened RelayInvariants
  import opened RelaySteps
  import opened RelayRuns
  import opened RelaySeats
  import PendingMap
  import WebShares

  // ------------------------------------------------------------- runs, step by step

  datatype Trace = Trace(states: seq<State>, events: seq<Event>)

  /** Why the program closes a connection: its reader has stopped between two
      messages; a write of something its queue had accepted has failed; another one
      that took its id over closes it; or it was found idle among those listed. */
  predicate HasCause(s: State, a: AgentId) {
    && a in s.agents
    && (|| s.agents[a].pc.Idle?
        || (!s.agents[a].web && BoxOf(s.mail, a).written > 0)
        || (exists b :: b in s.agents && s.agents[b].pc == ClosingOther(a))
        || (exists id :: id in s.tables.clients && s.tables.clients[id] == a))
  }

  predicate Caused(s: State, e: Event) {
    e.StartClose? ==> HasCause(s, e.a)
  }

  /** A run in which nothing closes without a cause. */
  ghost predicate IsCausedRun(cfg: Config, states: seq<State>, events: seq<Event>) {
    && IsRun(cfg, states, events)
    && forall i :: 0 <= i < |events| ==> Caused(states[i], events[i])
  }

  /** `t` is such a run that has come to state `s`. */
  ghost predicate At(cfg: Config, t: Trace, s: State) {
    IsCausedRun(cfg, t.states, t.events) && t.states[|t.events|] == s
  }

  /** `t'` goes on from `t` by `n` events. */
  predicate GoesOn(t: Trace, t': Trace, n: nat) {
    t.states <= t'.states && t.events <= t'.events && |t'.events| == |t.events| + n
  }

  /** From `t` on, only `a` takes messages. */
  predicate OnlyHears(t: Trace, t': Trace, a: AgentId) {
    forall i :: |t.events| <= i < |t'.events| && t'.events[i].Recv? ==> t'.events[i].a == a
  }

  lemma Start(cfg: Config) returns (t: Trace)
    ensures At(cfg, t, Initial(cfg)) == true && t == Trace([Initial(cfg)], [])
  {
    t := Trace([Initial(cfg)], []);
  }

  lemma Step(cfg: Config, t: Trace, s: State, e: Event, s': State) returns (t': Trace)
    requires At(cfg, t, s) == true && Enabled(s, e) && Caused(s, e) && RelaySystem.Apply(s, e) == s'
    ensures At(cfg, t', s') == true && t' == Trace(t.states + [s'], t.events + [e])
    ensures GoesOn(t, t', 1) == true
  {
    t' := Trace(t.states + [s'], t.events + [e]);
    forall i | 0 <= i < |t'.events|
      ensures Enabled(t'.states[i], t'.events[i]) && t'.states[i + 1] == RelaySystem.Apply(t'.states[i], t'.events[i])
      ensures Caused(t'.states[i], t'.events[i])
    {
      if i < |t.events| {
        assert t'.states[i] == t.states[i] && t'.states[i + 1] == t.states[i + 1] && t'.events[i] == t.events[i];
      }
    }
  }

  // ------------------------------------------------------------ what connections do

  const CHOICE := Choice(0, "s", "", "", {})
  const STRANGER := Agent(false, "", "", "", Open, [], Idle, "", "", "")

  function RegisterMessage(cfg: Config, id: string): Envelope {
    Envelope(DeviceRegister, "", "", RELAY, Registration(id, "", "", cfg.sharedToken))
  }

  /** A device that has sent its id, before the relay decides. */
  function Newcomer(cfg: Config, id: string): Agent {
    Agent(false, id, "", ROLE_PEER, Open, [RegisterMessage(cfg, id)], Registering, "", "", "")
  }

  predicate DevicesOnly(s: State) {
    forall b :: b in s.agents ==> !s.agents[b].web
  }

  lemma Opens(cfg: Config, t: Trace, s: State, a: AgentId) returns (t': Trace)
    requires At(cfg, t, s) == true && a !in s.agents
    ensures At(cfg, t', s.(agents := s.agents[a := STRANGER])) == true && GoesOn(t, t', 1) == true
  {
    t' := Step(cfg, t, s, Connect(a), s.(agents := s.agents[a := STRANGER]));
  }

  lemma SendsId(cfg: Config, t: Trace, s: State, a: AgentId, id: string) returns (t': Trace)
    requires At(cfg, t, s) == true && s.cfg == cfg && a in s.agents && s.agents[a] == STRANGER && id != "" && DevicesOnly(s)
    ensures At(cfg, t', s.(agents := s.agents[a := Newcomer(cfg, id)])) == true && GoesOn(t, t', 1) == true
  {
    var msg := RegisterMessage(cfg, id);
    assert STRANGER.inbox + [msg] == [msg];
    assert Receive(s, a, msg, 0) == s.(agents := s.agents[a := Newcomer(cfg, id)]);
    t' := Step(cfg, t, s, Recv(a, msg, 0), s.(agents := s.agents[a := Newcomer(cfg, id)]));
  }

  /** A connection opens and sends its id. */
  lemma Arrives(cfg: Config, t: Trace, s: State, a: AgentId, id: string) returns (t': Trace)
    requires At(cfg, t, s) == true && s.cfg == cfg && a !in s.agents && id != "" && DevicesOnly(s)
    ensures At(cfg, t', s.(agents := s.agents[a := Newcomer(cfg, id)])) == true && GoesOn(t, t', 2) == true
  {
    t' := Opens(cfg, t, s, a);
    var unnamed := s.(agents := s.agents[a := STRANGER]);
    t' := SendsId(cfg, t', unnamed, a, id);
    assert unnamed.agents[a := Newcomer(cfg, id)] == s.agents[a := Newcomer(cfg, id)];
  }

  lemma IsDecided(cfg: Config, t: Trace, s: State, a: AgentId) returns (t': Trace)
    requires At(cfg, t, s) == true && a in s.agents && s.agents[a].pc.Registering?
    ensures At(cfg, t', Admitting(s, a)) == true && GoesOn(t, t', 1) == true
    ensures t'.events[|t.events|] == Proceed(a, CHOICE)
  {
    RunsRegister(s, a, CHOICE);
    t' := Step(cfg, t, s, Proceed(a, CHOICE), Admitting(s, a));
  }

  function Placed(s: State, a: AgentId, id: string): State {
    s.(agents := s.agents[a := Newcomer(s.cfg, id).(pc := Idle)],
       tables := Register(s.tables, id, a), seated := s.seated + {(id, a)})
  }

  lemma IsPlaced(s: State, a: AgentId, id: string)
    requires id != "" && id !in s.tables.clients && !Full(s.tables, s.cfg.maxClients)
    ensures Admitting(s.(agents := s.agents[a := Newcomer(s.cfg, id)]), a) == Placed(s, a, id)
  {
    var named := s.(agents := s.agents[a := Newcomer(s.cfg, id)]);
    assert Admitting(named, a).agents == Placed(s, a, id).agents;
  }

  /** A device registers under an id that is free. */
  lemma Registers(cfg: Config, t: Trace, s: State, a: AgentId, id: string) returns (t': Trace)
    requires At(cfg, t, s) == true && s.cfg == cfg && a !in s.agents && id != "" && DevicesOnly(s)
    requires id !in s.tables.clients && !Full(s.tables, cfg.maxClients)
    ensures At(cfg, t', Placed(s, a, id)) == true && GoesOn(t, t', 3) == true
  {
    t' := Arrives(cfg, t, s, a, id);
    var s1 := s.(agents := s.agents[a := Newcomer(cfg, id)]);
    t' := IsDecided(cfg, t', s1, a);
    IsPlaced(s, a, id);
  }

  /** A lookup leads on. */
  lemma Looks(cfg: Config, t: Trace, s: State, a: AgentId, pc: Pc) returns (t': Trace)
    requires At(cfg, t, s) == true && a in s.agents && IsLookup(s.agents[a].pc) && Runnable(s, a, CHOICE)
    requires Looked(s.tables, a, s.agents[a]) == pc
    ensures At(cfg, t', Goto(s, a, pc)) == true && GoesOn(t, t', 1) == true && OnlyHears(t, t', a) == true
    ensures t'.events[|t.events|] == Proceed(a, CHOICE)
  {
    RunsLookup(s, a, CHOICE);
    t' := Step(cfg, t, s, Proceed(a, CHOICE), Goto(s, a, pc));
  }

  function Leaving(s: State, a: AgentId): State
    requires a in s.agents
  {
    s.(agents := s.agents[a := s.agents[a].(phase := Closing)])
  }

  /** A connection starts to close and is torn down. */
  lemma Closes(cfg: Config, t: Trace, s: State, a: AgentId, order: seq<string>) returns (t': Trace)
    requires At(cfg, t, s) == true && a in s.agents && s.agents[a].phase == Open && HasCause(s, a)
    requires Enumerates(order, Ended(s, a))
    ensures GoesOn(t, t', 2) == true
    ensures var closing := Leaving(s, a);
      && Enumerates(order, Ended(closing, a)) && At(cfg, t', TearDown(closing, a, order, 0, {})) == true
      && t'.states == t.states + [closing, TearDown(closing, a, order, 0, {})]
  {
    var closing := Leaving(s, a);
    t' := Step(cfg, t, s, StartClose(a), closing);
    t' := Step(cfg, t', closing, FinishClose(a, order, 0, {}), TearDown(closing, a, order, 0, {}));
  }

  /** A connection takes a message that changes nothing but where it stands. */
  lemma Hears(cfg: Config, t: Trace, s: State, a: AgentId, msg: Envelope, pc: Pc) returns (t': Trace)
    requires At(cfg, t, s) == true && a in s.agents && s.agents[a].pc.Idle?
    requires msg.kind != DeviceRegister && msg.kind != AuthCodePublish && Entry(s.cfg, a, s.agents[a], msg) == pc
    ensures At(cfg, t', Heard(s, a, msg, pc)) == true && GoesOn(t, t', 1) == true && OnlyHears(t, t', a) == true
  {
    t' := Step(cfg, t, s, Recv(a, msg, 0), Heard(s, a, msg, pc));
  }

  function Heard(s: State, a: AgentId, msg: Envelope, pc: Pc): State
    requires a in s.agents
  {
    s.(agents := s.agents[a := s.agents[a].(pc := pc, inbox := s.agents[a].inbox + [msg])])
  }

  /** The handler of the message just taken looks something up and goes on. */
  lemma LooksOn(cfg: Config, t: Trace, s: State, a: AgentId, msg: Envelope, pc: Pc, onward: Pc) returns (t': Trace)
    requires a in s.agents && At(cfg, t, Heard(s, a, msg, pc)) == true && IsLookup(pc) && !pc.ClosingOther?
    requires Looked(s.tables, a, Heard(s, a, msg, pc).agents[a]) == onward
    ensures At(cfg, t', Heard(s, a, msg, onward)) == true && GoesOn(t, t', 1) == true && OnlyHears(t, t', a) == true
  {
    var s1 := Heard(s, a, msg, pc);
    t' := Looks(cfg, t, s1, a, onward);
    assert Goto(s1, a, onward) == Heard(s, a, msg, onward);
  }

  const AGREED := Confirm(true, "", MODE_VIEW_CONTROL, true)

  /** Nothing is pending; `desk` is an idle device listed as "d", and `x` is listed as "v". */
  predicate TwoListed(s: State, desk: AgentId, x: AgentId) {
    && s.tables.pending == map[] && s.live == map[] && "s" !in s.created
    && Seated(s, "d", desk) && Seated(s, "v", x) && x in s.agents && desk in s.agents
    && s.agents[desk].id == "d" && !s.agents[desk].web && s.agents[desk].pc.Idle?
  }

  function AgreedMessage(): Envelope {
    Envelope(SessionConfirm, "", "", "v", AGREED)
  }

  lemma FindsPeer(cfg: Config, t: Trace, s: State, desk: AgentId, x: AgentId) returns (t': Trace)
    requires At(cfg, t, s) == true && TwoListed(s, desk, x)
    ensures At(cfg, t', Heard(s, desk, AgreedMessage(), CnfConsume("v", AGREED, x))) == true && GoesOn(t, t', 3) == true
  {
    t' := Hears(cfg, t, s, desk, AgreedMessage(), CnfClient("v", AGREED));
    t' := LooksOn(cfg, t', s, desk, AgreedMessage(), CnfClient("v", AGREED), CnfWeb("v", AGREED, Some(x)));
    t' := LooksOn(cfg, t', s, desk, AgreedMessage(), CnfWeb("v", AGREED, Some(x)), CnfConsume("v", AGREED, x));
  }

  lemma NothingPending(s: State, desk: AgentId, x: AgentId)
    requires desk in s.agents && s.tables.pending == map[] && s.live == map[]
    ensures Accepting(s, desk, "v", AGREED, x) == Goto(s, desk, CnfCreate("v", AGREED, x, None))
  {
    assert Consuming(s, "v", s.agents[desk].id).tables.pending == s.tables.pending;
    assert Consuming(s, "v", s.agents[desk].id).live == s.live;
  }

  /** The session that an accepting answer of "d" to "v" makes without a request. */
  const AGREED_SESSION := Session("s", "v", "d", MODE_VIEW_CONTROL, true, 0, 0)

  predicate MakesSession(s: State, s': State, desk: AgentId) {
    && desk in s.agents && desk in s'.agents
    && s' == s.(tables := AddSession(s.tables, AGREED_SESSION), agents := s.agents[desk := s'.agents[desk]], created := s'.created)
    && !s'.agents[desk].web && s'.agents[desk].id == s.agents[desk].id && s'.agents[desk].phase == s.agents[desk].phase
  }

  /** The answer is accepted, and the session is made. */
  lemma Concludes(cfg: Config, t: Trace, s: State, desk: AgentId, x: AgentId) returns (t': Trace)
    requires At(cfg, t, s) == true && desk in s.agents && x in s.agents && s.tables.pending == map[] && s.live == map[]
    requires s.agents[desk].pc == CnfConsume("v", AGREED, x) && "s" !in s.created
    ensures var agreed := Goto(s, desk, CnfCreate("v", AGREED, x, None));
      At(cfg, t', Creating(agreed, desk, agreed.agents[desk].pc, CHOICE)) == true && GoesOn(t, t', 2) == true
  {
    NothingPending(s, desk, x);
    RunsConfirm(s, desk, CHOICE);
    var s2 := Goto(s, desk, CnfCreate("v", AGREED, x, None));
    t' := Step(cfg, t, s, Proceed(desk, CHOICE), s2);
    RunsCreate(s2, desk, CHOICE);
    t' := Step(cfg, t', s2, Proceed(desk, CHOICE), Creating(s2, desk, s2.agents[desk].pc, CHOICE));
  }

  lemma IsMade(s: State, desk: AgentId, x: AgentId, s1: State)
    requires TwoListed(s, desk, x) && s1 == Heard(s, desk, AgreedMessage(), CnfConsume("v", AGREED, x))
    ensures var agreed := Goto(s1, desk, CnfCreate("v", AGREED, x, None));
      MakesSession(s, Creating(agreed, desk, agreed.agents[desk].pc, CHOICE), desk) == true
  {
    var agreed := Goto(s1, desk, CnfCreate("v", AGREED, x, None));
    var s' := Creating(agreed, desk, agreed.agents[desk].pc, CHOICE);
    assert s'.tables == AddSession(s.tables, AGREED_SESSION);
    assert s'.agents == s.agents[desk := s'.agents[desk]];
  }

  /** Device "d" agrees to a session with "v" that nobody asked it for. */
  lemma Agrees(cfg: Config, t: Trace, s: State, desk: AgentId, x: AgentId) returns (t': Trace, s': State)
    requires At(cfg, t, s) == true && TwoListed(s, desk, x)
    ensures At(cfg, t', s') == true && GoesOn(t, t', 5) == true && MakesSession(s, s', desk) == true
  {
    t' := FindsPeer(cfg, t, s, desk, x);
    var s1 := Heard(s, desk, AgreedMessage(), CnfConsume("v", AGREED, x));
    t' := Concludes(cfg, t', s1, desk, x);
    IsMade(s, desk, x, s1);
    var agreed := Goto(s1, desk, CnfCreate("v", AGREED, x, None));
    s' := Creating(agreed, desk, agreed.agents[desk].pc, CHOICE);
  }

  lemma FirstPost(people: map<AgentId, Agent>, m: Sent)
    requires m.to in people && people[m.to].phase == Open
    ensures Post(people, Mail([], map[]), m, {}) == Mail([m], map[m.to := Box([0], 0)])
  {
    var none: seq<nat> := [];
    assert none + [0] == [0];
    assert Mail([], map[]).log + [m] == [m];
  }

  /** An error reply is offered to the connection itself. */
  lemma Reports(cfg: Config, t: Trace, s: State, a: AgentId) returns (t': Trace, s': State)
    requires At(cfg, t, s) == true && a in s.agents && s.agents[a].pc == Failing(a, s.agents[a])
    ensures At(cfg, t', s') == true && s'.tables == s.tables && s'.seated == s.seated && s'.cfg == s.cfg && GoesOn(t, t', 1) == true
    ensures s'.agents == s.agents[a := s.agents[a].(pc := Idle)]
    ensures s.mail == Mail([], map[]) && s.agents[a].phase == Open ==>
              s' == s.(agents := s.agents[a := s.agents[a].(pc := Idle)],
                       mail := Mail([Sent(a, ErrorEnvelope(s.agents[a].id), a, |s.agents[a].inbox|)], map[a := Box([0], 0)]))
  {
    RunsOffer(s, a, CHOICE);
    s' := Offered(s, a, a, ErrorEnvelope(s.agents[a].id), Finish, {});
    t' := Step(cfg, t, s, Proceed(a, CHOICE), s');
    if s.mail == Mail([], map[]) && s.agents[a].phase == Open {
      FirstPost(s.agents, Sent(a, ErrorEnvelope(s.agents[a].id), a, |s.agents[a].inbox|));
    }
  }

  // -------------------------------------------------------- seated after the tear-down

  const ANYONE := Config(0, "")

  lemma NothingToClear(id: string, a: AgentId, now: int)
    ensures Unregister<AgentId, AgentId>(Empty(), id, a, now) == Empty()
    ensures SessionsOf(Empty<AgentId, AgentId>().sessions, id) == {}
  {
    var t := Unregister<AgentId, AgentId>(Empty(), id, a, now);
    assert t.clients == map[] && t.sessions == map[] && t.pending == map[] && t.shares == map[];
  }

  /** A request for one's links before one has registered, which is refused. */
  const EARLY := Envelope(WebShareList, "", "", RELAY, Raw([]))

  /** Connection 0 with its two messages taken, where it stands. */
  function Hasty(phase: Phase, pc: Pc): Agent {
    Agent(false, "v", "", ROLE_PEER, phase, [EARLY, RegisterMessage(ANYONE, "v")], pc, "", "", "")
  }

  /** The one error reply, taken by the write loop. */
  const REFUSAL := Mail([Sent(0, ErrorEnvelope(""), 0, 1)], map[0 := Box([0], 1)])

  /** The relay with nothing but connection 0, torn down and listed under "v". */
  function Haunted(): State {
    Initial(ANYONE).(
      agents := map[0 := Hasty(Torn, Idle)], tables := Register(Empty(), "v", 0), seated := {("v", 0)}, mail := REFUSAL)
  }

  /** A connection asks before it has registered. */
  lemma AsksEarly() returns (t: Trace, s: State)
    ensures At(ANYONE, t, s) == true && |t.events| == 2
    ensures s == Initial(ANYONE).(agents := map[0 := STRANGER.(inbox := [EARLY], pc := Failing(0, STRANGER))])
  {
    t := Start(ANYONE);
    t := Opens(ANYONE, t, Initial(ANYONE), 0);
    var s0 := Initial(ANYONE).(agents := map[0 := STRANGER]);
    t := Hears(ANYONE, t, s0, 0, EARLY, Failing(0, STRANGER));
    assert STRANGER.inbox + [EARLY] == [EARLY];
    s := Heard(s0, 0, EARLY, Failing(0, STRANGER));
  }

  /** It is refused and told so; the write loop takes the reply. */
  lemma RefusedEarly() returns (t: Trace, s: State)
    ensures At(ANYONE, t, s) == true && |t.events| == 4
    ensures s == Initial(ANYONE).(agents := map[0 := STRANGER.(inbox := [EARLY])], mail := REFUSAL)
  {
    var s1, s2;
    t, s1 := AsksEarly();
    t, s2 := Reports(ANYONE, t, s1, 0);
    s := Initial(ANYONE).(agents := map[0 := STRANGER.(inbox := [EARLY])], mail := REFUSAL);
    t := Step(ANYONE, t, s2, Write(0), s);
  }

  /** It sends its id all the same. */
  lemma NamesItself(t0: Trace, s: State) returns (t: Trace)
    requires At(ANYONE, t0, s) == true
    requires s == Initial(ANYONE).(agents := map[0 := STRANGER.(inbox := [EARLY])], mail := REFUSAL)
    ensures At(ANYONE, t, s.(agents := map[0 := Hasty(Open, Registering)])) == true && GoesOn(t0, t, 1) == true
  {
    var msg := RegisterMessage(ANYONE, "v");
    assert [EARLY] + [msg] == [EARLY, msg];
    assert Receive(s, 0, msg, 0).agents == map[0 := Hasty(Open, Registering)];
    t := Step(ANYONE, t0, s, Recv(0, msg, 0), s.(agents := map[0 := Hasty(Open, Registering)]));
  }

  /** What its tear-down and its admission come to. */
  lemma TornThenPlaced(s: State)
    requires s == Initial(ANYONE).(agents := map[0 := Hasty(Open, Registering)], mail := REFUSAL)
    ensures Enumerates([], Ended(s, 0)) && Enumerates([], Ended(Leaving(s, 0), 0))
    ensures var torn := s.(agents := map[0 := Hasty(Torn, Registering)]);
      TearDown(Leaving(s, 0), 0, [], 0, {}) == torn && Admitting(torn, 0) == Haunted()
  {
    NothingToClear("v", 0, 0);
  }

  /** Connection 0 has sent its id when the write of an earlier reply fails: it is
      torn down at step 6 and admitted at step 7. */
  lemma SeatedAfterTearDown() returns (t: Trace)
    ensures At(ANYONE, t, Haunted()) == true && |t.events| == 8
    ensures SeatedLate(t.states, 6, 7, 8, "v", 0)
  {
    var s;
    t, s := RefusedEarly();
    t := NamesItself(t, s);
    s := s.(agents := map[0 := Hasty(Open, Registering)]);
    TornThenPlaced(s);
    t := Closes(ANYONE, t, s, 0, []);
    t := IsDecided(ANYONE, t, s.(agents := map[0 := Hasty(Torn, Registering)]), 0);
  }

  // ------------------------------------------------------ a hand-over without clearing

  /** Connection 0, torn down and listed under "v", has a session with device "d". */
  lemma HauntedSession() returns (t: Trace, s: State)
    ensures At(ANYONE, t, s) == true && s.cfg == ANYONE && DevicesOnly(s) && s.agents.Keys == {0, 1}
    ensures s.agents[0] == Haunted().agents[0] && s.tables == AddSession(Haunted().tables, AGREED_SESSION).(clients := map["v" := 0, "d" := 1])
  {
    t := SeatedAfterTearDown();
    HauntedListed();
    t := Registers(ANYONE, t, Haunted(), 1, "d");
    t, s := Agrees(ANYONE, t, Placed(Haunted(), 1, "d"), 1, 0);
  }

  lemma HauntedListed()
    ensures TwoListed(Placed(Haunted(), 1, "d"), 1, 0) == true
    ensures Placed(Haunted(), 1, "d").tables == Haunted().tables.(clients := map["v" := 0, "d" := 1])
  {
    assert Placed(Haunted(), 1, "d").tables.clients == map["v" := 0, "d" := 1];
  }

  lemma TakesSeatOfTorn(s: State, s1: State)
    requires s.cfg == ANYONE && 0 in s.agents && s.agents[0].phase == Torn && Seated(s, "v", 0)
    requires s1 == s.(agents := s.agents[2 := Newcomer(ANYONE, "v")])
    ensures Displaces(s1, Proceed(2, CHOICE), 2, 0) == true
    ensures Admitting(s1, 2) == Goto(s1.(tables := Register(s1.tables, "v", 2), seated := s1.seated + {("v", 2)}), 2, ClosingOther(0))
  {
  }

  lemma OneNamesV(sessions: map<string, Session>)
    requires sessions == map["s" := AGREED_SESSION]
    ensures SessionsOf(sessions, "v") == {"s"}
  {
  }

  /** Connection 2 takes over "v" from connection 0 and waits for its tear-down,
      which was before; the session that names "v" is still there afterwards. */
  lemma HandOverClearsNothing() returns (t: Trace, m: nat, n: nat)
    ensures IsCausedRun(ANYONE, t.states, t.events) && m < n < |t.events|
    ensures Displaces(t.states[m], t.events[m], 2, 0) && LeavesWait(t.states[n], t.events[n], 2, 0)
    ensures 0 in t.states[m].agents && t.states[m].agents[0].phase == Torn
    ensures SessionsOf(t.states[n + 1].tables.sessions, "v") == {"s"} == SessionsOf(t.states[m].tables.sessions, "v")
  {
    var s;
    t, s := HauntedSession();
    t := Arrives(ANYONE, t, s, 2, "v");
    var s1 := s.(agents := s.agents[2 := Newcomer(ANYONE, "v")]);
    TakesSeatOfTorn(s, s1);
    OneNamesV(s.tables.sessions);
    m := |t.events|;
    var t1 := IsDecided(ANYONE, t, s1, 2);
    var s2 := Admitting(s1, 2);
    n := |t1.events|;
    var t2 := Looks(ANYONE, t1, s2, 2, Idle);
    t := t2;
    assert t.states[m] == s1 && t.states[n] == s2 && t.states[n + 1] == Goto(s2, 2, Idle);
  }

  // ------------------------------------------------------------ a refused connection

  const TWO := Config(2, "")

  /** Devices "v" and "d" fill a relay for two. */
  lemma TwoDevices() returns (t: Trace, s: State)
    ensures At(TWO, t, s) == true && s == Placed(Placed(Initial(TWO), 0, "v"), 1, "d")
    ensures s.tables.clients == map["v" := 0, "d" := 1]
  {
    t := Start(TWO);
    var s1 := Placed(Initial(TWO), 0, "v");
    t := Registers(TWO, t, Initial(TWO), 0, "v");
    assert |s1.tables.clients.Keys| == |{"v"}| == 1;
    t := Registers(TWO, t, s1, 1, "d");
    s := Placed(s1, 1, "d");
  }

  lemma FullHouse() returns (t: Trace, s: State)
    ensures At(TWO, t, s) == true && s.cfg == TWO && DevicesOnly(s) && s.agents.Keys == {0, 1}
    ensures s.agents[0] == Newcomer(TWO, "v").(pc := Idle) && s.agents[1].phase == Open && s.mail == Mail([], map[])
    ensures s.tables.sessions == map["s" := AGREED_SESSION] && s.tables.clients == map["v" := 0, "d" := 1]
    ensures s.seated == {("v", 0), ("d", 1)}
  {
    var s0;
    t, s0 := TwoDevices();
    t, s := Agrees(TWO, t, s0, 1, 0);
    assert s.tables.sessions == map["s" := AGREED_SESSION];
  }

  lemma Turned(cfg: Config, t: Trace, s: State, a: AgentId) returns (t': Trace, s': State)
    requires At(cfg, t, s) == true && a in s.agents && s.agents[a].pc.Registering? && Full(s.tables, s.cfg.maxClients)
    ensures At(cfg, t', s') == true && s'.tables == s.tables && s'.seated == s.seated
    ensures s'.agents == s.agents[a := s.agents[a].(pc := Idle)]
    ensures s.mail == Mail([], map[]) && s.agents[a].phase == Open ==> s'.mail.boxes.Keys == {a}
  {
    t' := IsDecided(cfg, t, s, a);
    var s1 := Goto(s, a, Failing(a, s.agents[a]));
    t', s' := Reports(cfg, t', s1, a);
    assert s1.agents[a := s1.agents[a].(pc := Idle)] == s.agents[a := s.agents[a].(pc := Idle)];
  }

  /** Connection 2 sends the id "v" and is refused; its handler reports that and is done. */
  lemma Refused(t0: Trace, s: State) returns (t: Trace, s': State)
    requires At(TWO, t0, s) == true && s.cfg == TWO && DevicesOnly(s) && s.agents.Keys == {0, 1}
    requires s.tables.clients == map["v" := 0, "d" := 1] && s.mail == Mail([], map[])
    ensures At(TWO, t, s') == true && s'.tables == s.tables && s'.seated == s.seated && 1 !in s'.mail.boxes
    ensures s'.agents == s.agents[2 := Newcomer(TWO, "v").(pc := Idle)]
  {
    t := Arrives(TWO, t0, s, 2, "v");
    var s1 := s.(agents := s.agents[2 := Newcomer(TWO, "v")]);
    assert |s1.tables.clients.Keys| == |{"v", "d"}| == 2;
    t, s' := Turned(TWO, t, s1, 2);
    assert s1.agents[2 := Newcomer(TWO, "v").(pc := Idle)] == s.agents[2 := Newcomer(TWO, "v").(pc := Idle)];
  }

  function Click(from: string, to: string): Envelope {
    Envelope(InputMouse, "s", from, to, Raw([]))
  }

  /** `a` goes by "v" and is idle; there is the session of "v" and "d", who is listed as `x`. */
  predicate CanClick(s: State, a: AgentId, x: AgentId) {
    && a in s.agents && !s.agents[a].web && s.agents[a].id == "v" && s.agents[a].pc.Idle?
    && "s" in s.tables.sessions && s.tables.sessions["s"] == AGREED_SESSION && Seated(s, "d", x)
  }

  lemma Guards(cfg: Config, t0: Trace, s: State, a: AgentId, x: AgentId) returns (t: Trace)
    requires At(cfg, t0, s) == true && CanClick(s, a, x)
    ensures At(cfg, t, Heard(s, a, Click("", ""), FwdRead(Click("", "")))) == true && GoesOn(t0, t, 2) == true
    ensures OnlyHears(t0, t, a) == true
  {
    var msg := Click("", "");
    t := Hears(cfg, t0, s, a, msg, FwdGuard(msg));
    t := LooksOn(cfg, t, s, a, msg, FwdGuard(msg), FwdRead(msg));
  }

  lemma Aims(cfg: Config, t0: Trace, s: State, a: AgentId, x: AgentId) returns (t: Trace)
    requires CanClick(s, a, x) && At(cfg, t0, Heard(s, a, Click("", ""), FwdRead(Click("", "")))) == true
    ensures At(cfg, t, Heard(s, a, Click("", ""), FwdTouch(x, Click("v", "d")))) == true && GoesOn(t0, t, 2) == true
    ensures OnlyHears(t0, t, a) == true
  {
    var msg := Click("", "");
    t := LooksOn(cfg, t0, s, a, msg, FwdRead(msg), FwdClient(Click("v", "d")));
    t := LooksOn(cfg, t, s, a, msg, FwdClient(Click("v", "d")), FwdTouch(x, Click("v", "d")));
  }

  /** The session is touched, and the click goes into the log. */
  lemma Delivers(cfg: Config, t0: Trace, s: State, a: AgentId, x: AgentId, e: Envelope) returns (t: Trace)
    requires At(cfg, t0, s) == true && a in s.agents && s.agents[a].pc == FwdTouch(x, e)
    ensures At(cfg, t, Offered(Touching(s, a, x, e, 0), a, x, e, Report, {})) == true
    ensures GoesOn(t0, t, 2) == true && OnlyHears(t0, t, a) == true
  {
    RunsOffer(s, a, CHOICE);
    var s2 := Touching(s, a, x, e, 0);
    t := Step(cfg, t0, s, Proceed(a, CHOICE), s2);
    RunsOffer(s2, a, CHOICE);
    t := Step(cfg, t, s2, Proceed(a, CHOICE), Offered(s2, a, x, e, Report, {}));
  }

  /** A click from `a` is offered to the device. */
  lemma Clicks(cfg: Config, t0: Trace, s: State, a: AgentId, x: AgentId) returns (t: Trace, s': State)
    requires At(cfg, t0, s) == true && CanClick(s, a, x)
    ensures At(cfg, t, s') == true && GoesOn(t0, t, 6) == true && OnlyHears(t0, t, a) == true
    ensures s'.mail.log == s.mail.log + [Sent(x, Click("v", "d"), a, |s.agents[a].inbox| + 1)]
    ensures s.mail == Mail([], map[]) && x in s.agents && s.agents[x].phase == Open ==> s'.mail.boxes == map[x := Box([0], 0)]
    ensures a in s'.agents && s'.agents == s.agents[a := s'.agents[a]] && s'.tables == s.tables && s'.seated == s.seated
    ensures s'.agents[a].id == "v" && !s'.agents[a].web && s'.agents[a].phase == s.agents[a].phase
    ensures x !in s.mail.boxes && x in s.agents && s.agents[x].phase == Open ==> s'.agents[a].pc.Idle?
  {
    t := Guards(cfg, t0, s, a, x);
    t := Aims(cfg, t, s, a, x);
    var s1 := Heard(s, a, Click("", ""), FwdTouch(x, Click("v", "d")));
    t := Delivers(cfg, t, s1, a, x, Click("v", "d"));
    var s2 := Touching(s1, a, x, Click("v", "d"), 0);
    assert s2.tables.sessions == s.tables.sessions;
    s' := Offered(s2, a, x, Click("v", "d"), Report, {});
    assert s'.agents == s.agents[a := s'.agents[a]];
    if s.mail == Mail([], map[]) && x in s.agents && s.agents[x].phase == Open {
      FirstPost(s2.agents, Sent(x, Click("v", "d"), a, |s2.agents[a].inbox|));
    }
  }

  lemma KeepsClicking(s: State, s': State)
    requires s.tables.sessions == map["s" := AGREED_SESSION] && s.tables.clients == map["v" := 0, "d" := 1]
    requires s'.tables == s.tables && s'.agents == s.agents[2 := Newcomer(TWO, "v").(pc := Idle)]
    ensures CanClick(s', 2, 1)
  {
  }

  /** The session of "v" and "d" is on; 2 goes by "v", is open and was never listed. */
  predicate StillOn(s: State) {
    && s.tables.sessions == map["s" := AGREED_SESSION] && Seated(s, "v", 0) && Seated(s, "d", 1) && ("v", 2) !in s.seated
    && 2 in s.agents && s.agents[2].id == "v" && !s.agents[2].web && s.agents[2].phase == Open && s.agents[2].pc.Idle?
    && 0 in s.agents && s.agents[0].phase == Open
  }

  lemma RefusedClick() returns (t: Trace, s: State)
    ensures At(TWO, t, s) == true && StillOn(s) == true
    ensures s.mail.log != [] && s.mail.log[|s.mail.log| - 1] == Sent(1, Click("v", "d"), 2, 2)
  {
    var s0, s1;
    t, s0 := FullHouse();
    t, s1 := Refused(t, s0);
    KeepsClicking(s0, s1);
    t, s := Clicks(TWO, t, s1, 2, 1);
  }

  lemma OneSession(s: State)
    requires StillOn(s)
    ensures Enumerates(["s"], Ended(s, 2)) == true
  {
    assert SessionsOf(s.tables.sessions, "v") == {"s"};
  }

  lemma TakenDown(s: State)
    requires StillOn(s) && Enumerates(["s"], Ended(Leaving(s, 2), 2))
    ensures var s' := TearDown(Leaving(s, 2), 2, ["s"], 0, {});
      && Falls(Leaving(s, 2), s', 2) && s'.tables.sessions == map[]
      && Seated(s', "v", 0) && Seated(s', "d", 1) && 0 in s'.agents && s'.agents[0].phase == Open
  {
    assert WithoutSessionsOf(s.tables.sessions, "v") == map[];
  }

  /** Connection 2 is refused for capacity under the id of the controller of a
      session, and still a click from it reaches the controlled device; when it
      goes, the session of the two registered devices ends with it. */
  lemma RefusedConnectionActs() returns (t: Trace, n: nat)
    ensures IsCausedRun(TWO, t.states, t.events) && n + 2 == |t.events|
    ensures var s := t.states[n];
      StillOn(s) && s.mail.log != [] && s.mail.log[|s.mail.log| - 1] == Sent(1, Click("v", "d"), 2, 2)
    ensures var s := t.states[n + 2];
      && Falls(t.states[n + 1], s, 2) && s.tables.sessions == map[]
      && Seated(s, "v", 0) && Seated(s, "d", 1) && 0 in s.agents && s.agents[0].phase == Open
  {
    var s;
    t, s := RefusedClick();
    n := |t.events|;
    OneSession(s);
    TakenDown(s);
    t := Closes(TWO, t, s, 2, ["s"]);
  }
}
