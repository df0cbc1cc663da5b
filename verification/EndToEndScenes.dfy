/** A run of clients and relay in which a client injects input of a session that
    was never announced to it. */
module EndToEndScenes {
  import opened Protocol
  import opened Registry
  import opened RelaySystem
  import opened RelaySeats
  import opened RelayRuns
  import opened RelayInvariants
  import opened RelayScenes
  import opened EndToEnd
  import CR = ClientRuntime

  datatype Story = Story(worlds: seq<World>, events: seq<WorldEvent>)

  /** `y` is a run that has come to world `w`. */
  ghost predicate Stands(cfg: Config, y: Story, w: World) {
    IsWorldRun(cfg, y.worlds, y.events) && y.worlds[|y.events|] == w
  }

  lemma Tell(cfg: Config, y: Story, w: World, e: WorldEvent, w': World) returns (y': Story)
    requires Stands(cfg, y, w) == true && Possible(w, e) && Happen(w, e) == w'
    ensures Stands(cfg, y', w') == true && y' == Story(y.worlds + [w'], y.events + [e])
  {
    y' := Story(y.worlds + [w'], y.events + [e]);
    forall i | 0 <= i < |y'.events|
      ensures Possible(y'.worlds[i], y'.events[i]) && y'.worlds[i + 1] == Happen(y'.worlds[i], y'.events[i])
    {
      if i < |y.events| {
        assert y'.worlds[i] == y.worlds[i] && y'.worlds[i + 1] == y.worlds[i + 1] && y'.events[i] == y.events[i];
      }
    }
  }

  /** Step `k` of a run of the relay. */
  lemma StepOf(cfg: Config, t: Trace, s: State, k: nat)
    requires At(cfg, t, s) && k < |t.events|
    ensures |t.states| == |t.events| + 1
    ensures Enabled(t.states[k], t.events[k]) && RelaySystem.Apply(t.states[k], t.events[k]) == t.states[k + 1]
  {
  }

  lemma TellStep(cfg: Config, y: Story, w: World, event: Event, s': State) returns (y': Story)
    requires Stands(cfg, y, w) == true && Enabled(w.relay, event) && RelaySystem.Apply(w.relay, event) == s'
    requires event.Recv? ==> event.a !in w.runtimes
    ensures Stands(cfg, y', w.(relay := s')) == true
  {
    y' := Tell(cfg, y, w, Relay(event), w.(relay := s'));
  }

  /** What the relay does without the clients. */
  lemma {:induction false} TellRelay(cfg: Config, y: Story, w: World, t: Trace, k: nat, s': State) returns (y': Story)
    requires At(cfg, t, s') == true && k <= |t.events| < |t.states| && w.relay == t.states[k] && Stands(cfg, y, w) == true
    requires forall i :: k <= i < |t.events| && t.events[i].Recv? ==> t.events[i].a !in w.runtimes
    ensures Stands(cfg, y', w.(relay := s')) == true
    decreases |t.events| - k
  {
    y' := y;
    if k < |t.events| {
      StepOf(cfg, t, s', k);
      y' := TellStep(cfg, y, w, t.events[k], t.states[k + 1]);
      y' := TellRelay(cfg, y', w.(relay := t.states[k + 1]), t, k + 1, s');
    } else {
      assert t.states[k] == s';
    }
  }

  const WILLING := CR.Options(true, false, false, false, "", "", "", "", "")

  /** A client that has just dialled, and what it says first. */
  const NEW := CR.View("d", CR.NO_PENDING, CR.NO_SESSION)
  const DIALLED := Runtime(NEW, 0, [], true, NEW, [], {2})
  const REGISTERING := DIALLED.(outbox := [Outgoing(RegisterMessage(ANYONE, "d"), None)])

  /** "v" and "d" have a session, made by a connection that is no client; nothing
      has been offered to a queue. */
  predicate OldDesk(s: State) {
    && s.cfg == ANYONE && DevicesOnly(s) && s.agents.Keys == {0, 1} && s.mail == Mail([], map[])
    && s.agents[0].id == "v" && s.agents[0].pc.Idle? && s.tables.clients == map["v" := 0, "d" := 1]
    && s.tables.sessions == map["s" := AGREED_SESSION]
  }

  lemma Desk() returns (t: Trace, s: State)
    ensures At(ANYONE, t, s) == true && OldDesk(s) == true
  {
    t := Start(ANYONE);
    var s1 := Placed(Initial(ANYONE), 0, "v");
    t := Registers(ANYONE, t, Initial(ANYONE), 0, "v");
    t := Registers(ANYONE, t, s1, 1, "d");
    var s2 := Placed(s1, 1, "d");
    t, s := Agrees(ANYONE, t, s2, 1, 0);
    assert s.tables.sessions == map["s" := AGREED_SESSION];
    assert s.tables.clients == map["v" := 0, "d" := 1];
  }

  lemma Dials(y: Story, s: State) returns (y': Story)
    requires Stands(ANYONE, y, World(s, map[])) == true && 2 !in s.agents
    ensures Stands(ANYONE, y', World(s.(agents := s.agents[2 := STRANGER]), map[2 := DIALLED])) == true
  {
    var w := World(s, map[]);
    var none: set<AgentId> := {};
    assert none + {2} == {2};
    assert Fresh(w, 2, "d", None) == DIALLED;
    y' := Tell(ANYONE, y, w, Dial(2, "d", None), World(s.(agents := s.agents[2 := STRANGER]), map[2 := DIALLED]));
  }

  /** The client dials and sends the id "d". */
  lemma SaysId(y: Story, t: Trace, s: State) returns (y': Story, t': Trace, s': State)
    requires At(ANYONE, t, s) == true && Stands(ANYONE, y, World(s, map[])) == true && OldDesk(s)
    ensures At(ANYONE, t', s') == true && Stands(ANYONE, y', World(s', map[2 := REGISTERING])) == true
    ensures s' == s.(agents := s.agents[2 := Newcomer(ANYONE, "d")])
  {
    t' := Opens(ANYONE, t, s, 2);
    var s1 := s.(agents := s.agents[2 := STRANGER]);
    y' := Dials(y, s);
    y' := Says(y', s1);
    t' := SendsId(ANYONE, t', s1, 2, "d");
    s' := s1.(agents := s1.agents[2 := Newcomer(ANYONE, "d")]);
    y' := Takes(y', s1, s');
    assert s'.agents == s.agents[2 := Newcomer(ANYONE, "d")];
  }

  /** It takes the id over. */
  lemma TakesOver(y: Story, t: Trace, s: State) returns (y': Story, t': Trace, s': State)
    requires At(ANYONE, t, s) == true && Stands(ANYONE, y, World(s, map[])) == true && OldDesk(s)
    ensures At(ANYONE, t', s') == true && Stands(ANYONE, y', World(s', map[2 := REGISTERING])) == true
    ensures s'.mail == s.mail && s'.tables.sessions == s.tables.sessions && Seated(s', "d", 2)
    ensures 0 in s'.agents && s'.agents[0] == s.agents[0] && 2 in s'.agents && s'.agents[2].phase == Open
  {
    var s1;
    y', t', s1 := SaysId(y, t, s);
    RunsRegister(s1, 2, CHOICE);
    t' := IsDecided(ANYONE, t', s1, 2);
    s' := Admitting(s1, 2);
    y' := TellStep(ANYONE, y', World(s1, map[2 := REGISTERING]), Proceed(2, CHOICE), s');
  }

  lemma Says(y: Story, s: State) returns (y': Story)
    requires Stands(ANYONE, y, World(s, map[2 := DIALLED])) == true
    ensures Stands(ANYONE, y', World(s, map[2 := REGISTERING])) == true
  {
    assert DIALLED.outbox + [Outgoing(RegisterMessage(ANYONE, "d"), None)] == REGISTERING.outbox;
    y' := Tell(ANYONE, y, World(s, map[2 := DIALLED]), Say(2, RegisterMessage(ANYONE, "d")), World(s, map[2 := REGISTERING]));
  }

  lemma Takes(y: Story, s: State, s': State) returns (y': Story)
    requires Stands(ANYONE, y, World(s, map[2 := REGISTERING])) == true && s.cfg == ANYONE
    requires 2 in s.agents && s.agents[2] == STRANGER && DevicesOnly(s)
    requires s' == s.(agents := s.agents[2 := Newcomer(ANYONE, "d")])
    ensures Stands(ANYONE, y', World(s', map[2 := REGISTERING])) == true
  {
    var msg := RegisterMessage(ANYONE, "d");
    assert STRANGER.inbox + [msg] == [msg];
    assert Receive(s, 2, msg, 0) == s';
    y' := Tell(ANYONE, y, World(s, map[2 := REGISTERING]), Relay(Recv(2, msg, 0)), World(s', map[2 := REGISTERING]));
  }

  /** The write loop of the client's connection takes the one envelope there is. */
  lemma Writes(y: Story, s: State) returns (y': Story, s': State)
    requires Stands(ANYONE, y, World(s, map[2 := REGISTERING])) == true && s.mail.boxes == map[2 := Box([0], 0)]
    requires s.mail.log != []
    ensures Stands(ANYONE, y', World(s', map[2 := REGISTERING])) == true
    ensures s'.mail.log == s.mail.log && Incoming(s', 2) == [0]
  {
    s' := s.(mail := s.mail.(boxes := s.mail.boxes[2 := Box([0], 1)]));
    y' := TellStep(ANYONE, y, World(s, map[2 := REGISTERING]), Write(2), s');
    assert [0][..1] == [0];
  }

  lemma Reads(y: Story, s: State) returns (y': Story)
    requires Stands(ANYONE, y, World(s, map[2 := REGISTERING])) == true
    requires |s.mail.log| == 1 && s.mail.log[0].envelope == Click("v", "d") && Incoming(s, 2) == [0]
    ensures y'.events == y.events + [Deliver(2, false, WILLING, false)] && IsWorldRun(ANYONE, y'.worlds, y'.events)
    ensures y'.worlds[|y.events|] == World(s, map[2 := REGISTERING])
    ensures InjectsNow(World(s, map[2 := REGISTERING]), Deliver(2, false, WILLING, false))
  {
    var w, e := World(s, map[2 := REGISTERING]), Deliver(2, false, WILLING, false);
    y' := Tell(ANYONE, y, w, e, Happen(w, e));
    assert y'.worlds[|y.events|] == w;
  }

  lemma SceneSet() returns (y: Story, s: State)
    ensures Stands(ANYONE, y, World(s, map[2 := REGISTERING])) == true
    ensures s.mail.boxes == map[2 := Box([0], 0)] && |s.mail.log| == 1 && s.mail.log[0].envelope == Click("v", "d")
  {
    var t, s0 := Desk();
    y := Story([World(Initial(ANYONE), map[])], []);
    y := TellRelay(ANYONE, y, World(Initial(ANYONE), map[]), t, 0, s0);
    var s1;
    y, t, s1 := TakesOver(y, t, s0);
    var t';
    t', s := Clicks(ANYONE, t, s1, 0, 2);
    y := TellRelay(ANYONE, y, World(s1, map[2 := REGISTERING]), t', |t.events|, s);
  }

  /** A client that took an id over injects input of a session its predecessor had
      agreed to, with no session on record. */
  lemma InjectsOffRecord() returns (y: Story, n: nat)
    ensures IsWorldRun(ANYONE, y.worlds, y.events) && n < |y.events| && InjectsNow(y.worlds[n], y.events[n])
    ensures var e := y.events[n]; e.a in y.worlds[n].runtimes && y.worlds[n].runtimes[e.a].view.session == CR.NO_SESSION
  {
    var s;
    y, s := SceneSet();
    y, s := Writes(y, s);
    n := |y.events|;
    y := Reads(y, s);
  }
}
