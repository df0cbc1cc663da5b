/** How sessions end and how connections are torn down, over whole runs. */
module RelayLifeCycle {
  import opened Protocol
  import opened Registry
  import opened RelaySystem
  import opened RelayInvariants
  import opened RelayRuns
  import PendingMap
  import WebShares

  // -------------------------------------------------------------- runs and steps

  lemma RunStep(cfg: Config, states: seq<State>, events: seq<Event>, i: nat)
    requires IsRun(cfg, states, events) && i + 1 < |states|
    ensures Inv(states[i]) == true && Keeps(states[i], states[i + 1]) == true
  {
    RunsKeepInvariant(cfg, states, events, i);
    StepKeeps(states[i], events[i]);
  }

  lemma GrowsOn(s: State, t: State, u: State)
    requires Grows(s, t) && Grows(t, u)
    ensures Grows(s, u) == true
  {
  }

  lemma StepGrows(s: State, s': State)
    ensures Keeps(s, s') ==> Grows(s, s') == true
    ensures Grows(s, s) == true
  {
  }

  ghost predicate GrowsEach(states: seq<State>) {
    forall i :: 0 <= i < |states| - 1 ==> Grows(states[i], states[i + 1])
  }

  lemma EachStepGrows(cfg: Config, states: seq<State>, events: seq<Event>)
    requires IsRun(cfg, states, events)
    ensures GrowsEach(states)
  {
    forall i | 0 <= i < |states| - 1 ensures Grows(states[i], states[i + 1]) == true {
      RunStep(cfg, states, events, i);
      StepGrows(states[i], states[i + 1]);
    }
  }

  lemma {:induction false} ChainGrows(states: seq<State>, i: nat, j: nat)
    requires GrowsEach(states) && i <= j < |states|
    ensures Grows(states[i], states[j]) == true
  {
    StepGrows(states[i], states[i]);
    if i < j {
      ChainGrows(states, i, j - 1);
      GrowsOn(states[i], states[j - 1], states[j - 1 + 1]);
    }
  }

  /** Identities, messages taken, creations, removals and tear-downs are final. */
  lemma RunGrows(cfg: Config, states: seq<State>, events: seq<Event>, i: nat, j: nat)
    requires IsRun(cfg, states, events) && i <= j < |states|
    ensures Grows(states[i], states[j]) == true
  {
    EachStepGrows(cfg, states, events);
    ChainGrows(states, i, j);
  }

  // ------------------------------------------------------------- session life cycle

  /** A session is created once, and once removed it never comes back: a late
      touch does not resurrect it. */
  lemma NeverResurrected(cfg: Config, states: seq<State>, events: seq<Event>, i: nat, j: nat, sid: string)
    requires IsRun(cfg, states, events) && i <= j < |states| && sid in states[i].created
    ensures sid in states[j].created && states[j].created[sid] == states[i].created[sid]
    ensures sid !in states[i].tables.sessions ==> sid !in states[j].tables.sessions
  {
    RunGrows(cfg, states, events, i, j);
  }

  predicate IsCloseOf(m: Sent, sid: string) {
    m.envelope.kind == SessionClose && m.envelope.sessionId == sid
  }

  /** All session.close notices about `sid` ever offered, in order. */
  function Closes(log: seq<Sent>, sid: string): seq<Sent> {
    if log == [] then []
    else
      var last := log[|log| - 1];
      Closes(log[..|log| - 1], sid) + if IsCloseOf(last, sid) then [last] else []
  }

  lemma {:induction false} ClosesConcat(a: seq<Sent>, b: seq<Sent>, sid: string)
    ensures Closes(a + b, sid) == Closes(a, sid) + Closes(b, sid)
  {
    if b == [] {
      assert a + b == a;
    } else {
      ClosesConcat(a, b[..|b| - 1], sid);
      assert (a + b)[..|a + b| - 1] == a + b[..|b| - 1];
    }
  }

  lemma {:induction false} ClosesNone(log: seq<Sent>, sid: string)
    requires forall i :: 0 <= i < |log| ==> !IsCloseOf(log[i], sid)
    ensures Closes(log, sid) == []
  {
    if log != [] { ClosesNone(log[..|log| - 1], sid); }
  }

  lemma {:induction false} ClosesAll(log: seq<Sent>, sid: string)
    requires forall i :: 0 <= i < |log| ==> IsCloseOf(log[i], sid)
    ensures Closes(log, sid) == log
  {
    if log != [] {
      ClosesAll(log[..|log| - 1], sid);
      assert log[..|log| - 1] + [log[|log| - 1]] == log;
    }
  }

  /** The notices about one session, as `a` offers them. */
  function Told(t: RelayTables, session: Session, reason: string, a: AgentId, index: nat): seq<Sent> {
    Addressed(CloseNotices(t, session, reason), a, index)
  }

  lemma ToldCloses(t: RelayTables, session: Session, reason: string, a: AgentId, index: nat, sid: string)
    ensures Closes(Told(t, session, reason, a, index), sid)
         == if session.id == sid then Told(t, session, reason, a, index) else []
  {
    var told := Told(t, session, reason, a, index);
    forall i | 0 <= i < |told| ensures IsCloseOf(told[i], sid) <==> session.id == sid {
      NoticeShape(t, session, reason, i);
    }
    if session.id == sid { ClosesAll(told, sid); } else { ClosesNone(told, sid); }
  }

  lemma AddressedConcat(x: seq<Notice<AgentId, AgentId>>, y: seq<Notice<AgentId, AgentId>>, a: AgentId, index: nat)
    ensures Addressed(x + y, a, index) == Addressed(x, a, index) + Addressed(y, a, index)
  {
  }

  predicate Distinct(order: seq<string>) {
    forall i, j :: 0 <= i < j < |order| ==> order[i] != order[j]
  }

  lemma LastIsNew(order: seq<string>, before: seq<string>, last: string)
    requires order == before + [last] && Distinct(order)
    ensures Distinct(before) && last !in before
    ensures forall x :: x in order <==> x in before || x == last
  {
    forall i | 0 <= i < |before| ensures before[i] != last {
      assert order[i] == before[i] && order[|before|] == last;
    }
    forall i, j | 0 <= i < j < |before| ensures before[i] != before[j] {
      assert order[i] == before[i] && order[j] == before[j];
    }
  }

  lemma ClosesOfOneMore(t: RelayTables, sessions: map<string, Session>, before: seq<string>, last: string,
                        reason: string, a: AgentId, index: nat, sid: string)
    requires forall x :: x in before + [last] ==> x in sessions
    ensures Closes(Addressed(AllCloseNotices(t, sessions, before + [last], reason), a, index), sid)
         == Closes(Addressed(AllCloseNotices(t, sessions, before, reason), a, index), sid)
            + (if sessions[last].id == sid then Told(t, sessions[last], reason, a, index) else [])
  {
    NoticesMore(t, sessions, before, last, reason);
    AddressedConcat(AllCloseNotices(t, sessions, before, reason), CloseNotices(t, sessions[last], reason), a, index);
    ClosesConcat(Addressed(AllCloseNotices(t, sessions, before, reason), a, index),
                 Told(t, sessions[last], reason, a, index), sid);
    ToldCloses(t, sessions[last], reason, a, index, sid);
  }

  /** Among the notices for many sessions, those about `sid` are its own. */
  lemma {:induction false} ClosesOfMany(t: RelayTables, sessions: map<string, Session>, order: seq<string>,
                                        reason: string, a: AgentId, index: nat, sid: string)
    requires forall x :: x in order ==> x in sessions && sessions[x].id == x
    requires Distinct(order)
    ensures Closes(Addressed(AllCloseNotices(t, sessions, order, reason), a, index), sid)
         == if sid in order then Told(t, sessions[sid], reason, a, index) else []
  {
    if order != [] {
      var before, last := order[..|order| - 1], order[|order| - 1];
      assert order == before + [last];
      LastIsNew(order, before, last);
      ClosesOfMany(t, sessions, before, reason, a, index, sid);
      ClosesOfOneMore(t, sessions, before, last, reason, a, index, sid);
      assert sid in order <==> sid in before || sid == last;
      assert sid == last ==> sid !in before;
    } else {
      assert Addressed(AllCloseNotices(t, sessions, order, reason), a, index) == [];
    }
  }

  /** `sid` goes away between `s` and `s'`. */
  predicate RemovedIn(s: State, s': State, sid: string) {
    sid in s.tables.sessions && sid !in s'.tables.sessions
  }

  /** `told` is one session.close per registered endpoint of `sid`. */
  ghost predicate TellsEndpoints(s: State, s': State, sid: string, told: seq<Sent>) {
    && RemovedIn(s, s', sid)
    && exists a, reason :: a in s.agents && told == Told(s'.tables, s.tables.sessions[sid], reason, a, |s.agents[a].inbox|)
  }

  lemma StepCloses(s: State, s': State, sid: string)
    requires EndpointsOnline(s.tables) == true && EndStep(s, s') == true
    ensures s.mail.log <= s'.mail.log
    ensures !RemovedIn(s, s', sid) ==> Closes(s'.mail.log, sid) == Closes(s.mail.log, sid)
    ensures RemovedIn(s, s', sid) ==>
              exists told :: TellsEndpoints(s, s', sid, told) && Closes(s'.mail.log, sid) == Closes(s.mail.log, sid) + told
  {
    var added := s'.mail.log[|s.mail.log|..];
    assert s'.mail.log == s.mail.log + added;
    ClosesConcat(s.mail.log, added, sid);
    if EndsNothing(s, s') {
      assert forall i :: 0 <= i < |added| ==> added[i] == s'.mail.log[|s.mail.log| + i];
      ClosesNone(added, sid);
    } else {
      var a, order, reason :| Ends(s, s', a, order, reason);
      assert Distinct(order);
      ClosesOfMany(s'.tables, s.tables.sessions, order, reason, a, |s.agents[a].inbox|, sid);
      assert added == Addressed(AllCloseNotices(s'.tables, s.tables.sessions, order, reason), a, |s.agents[a].inbox|);
      if RemovedIn(s, s', sid) {
        assert sid in order;
        assert TellsEndpoints(s, s', sid, Closes(added, sid));
      }
    }
  }

  lemma RemovedNotLater(cfg: Config, states: seq<State>, events: seq<Event>, i: nat, j: nat, sid: string)
    requires IsRun(cfg, states, events) && i < j < |states| && RemovedIn(states[i], states[i + 1], sid)
    ensures sid !in states[j].tables.sessions
  {
    RunStep(cfg, states, events, i);
    StoredIsCreated(states[i], sid);
    RunGrows(cfg, states, events, i, i + 1);
    NeverResurrected(cfg, states, events, i + 1, j, sid);
  }

  lemma StoredIsCreated(s: State, sid: string)
    requires Inv(s) == true && sid in s.tables.sessions
    ensures sid in s.created
  {
  }

  /** The step at which `sid` went is unique. */
  lemma RemovedOnce(cfg: Config, states: seq<State>, events: seq<Event>, i: nat, j: nat, sid: string)
    requires IsRun(cfg, states, events) && i + 1 < |states| && j + 1 < |states|
    requires RemovedIn(states[i], states[i + 1], sid) && RemovedIn(states[j], states[j + 1], sid)
    ensures i == j
  {
    if i < j {
      RemovedNotLater(cfg, states, events, i, j, sid);
    } else if j < i {
      RemovedNotLater(cfg, states, events, j, i, sid);
    }
  }

  /** What a step does to one session. */
  ghost predicate EndsOne(s: State, s': State, sid: string) {
    && EndpointsOnline(s.tables) && EndStep(s, s')
    && (sid in s.created ==> sid in s'.created)
    && (sid in s.tables.sessions ==> sid in s.created)
    && (sid in s'.created && sid !in s.created ==> sid in s'.tables.sessions)
    && (sid in s.created && sid !in s.tables.sessions ==> sid !in s'.tables.sessions)
  }

  lemma StepEnds(s: State, s': State, sid: string)
    requires Inv(s) == true && Keeps(s, s') == true
    ensures EndsOne(s, s', sid) == true
  {
  }

  ghost predicate EndsEach(states: seq<State>, sid: string) {
    && states != [] && sid !in states[0].created && states[0].mail.log == []
    && forall i :: 0 <= i < |states| - 1 ==> EndsOne(states[i], states[i + 1], sid)
  }

  lemma EachStepEnds(cfg: Config, states: seq<State>, events: seq<Event>, sid: string)
    requires IsRun(cfg, states, events)
    ensures EndsEach(states, sid)
  {
    forall i | 0 <= i < |states| - 1 ensures EndsOne(states[i], states[i + 1], sid) == true {
      RunStep(cfg, states, events, i);
      StepEnds(states[i], states[i + 1], sid);
    }
  }

  /** Nothing has been told about `sid` while it is not created or stored. */
  predicate NothingTold(s: State, sid: string) {
    sid !in s.created || sid in s.tables.sessions ==> Closes(s.mail.log, sid) == []
  }

  lemma ClosedStep(s: State, s': State, sid: string)
    requires EndsOne(s, s', sid) == true && NothingTold(s, sid)
    ensures NothingTold(s', sid)
    ensures RemovedIn(s, s', sid) ==> TellsEndpoints(s, s', sid, Closes(s'.mail.log, sid)) == true
    ensures sid in s'.created && sid !in s'.tables.sessions && !RemovedIn(s, s', sid) ==>
              sid in s.created && sid !in s.tables.sessions && Closes(s'.mail.log, sid) == Closes(s.mail.log, sid)
  {
    StepCloses(s, s', sid);
  }

  ghost predicate ToldOnce(states: seq<State>, n: nat, sid: string)
    requires n < |states|
  {
    sid in states[n].created && sid !in states[n].tables.sessions ==>
      exists k: nat :: k < n && TellsEndpoints(states[k], states[k + 1], sid, Closes(states[n].mail.log, sid))
  }

  lemma {:induction false} ChainEnds(states: seq<State>, n: nat, sid: string)
    requires EndsEach(states, sid) && n < |states|
    ensures NothingTold(states[n], sid) && ToldOnce(states, n, sid)
  {
    if n > 0 {
      ChainEnds(states, n - 1, sid);
      ClosedStep(states[n - 1], states[n - 1 + 1], sid);
      if RemovedIn(states[n - 1], states[n], sid) {
        assert TellsEndpoints(states[n - 1], states[n - 1 + 1], sid, Closes(states[n].mail.log, sid));
      }
    }
  }

  /** Nothing is told about a session while it lives.  Once it is gone, the
      notices ever offered about it are exactly those of the one step that
      removed it: one per endpoint then registered, whether a close message,
      a device's tear-down or a visitor's tear-down ended it. */
  lemma ClosedExactlyOnce(cfg: Config, states: seq<State>, events: seq<Event>, n: nat, sid: string)
    requires IsRun(cfg, states, events) && n < |states|
    ensures sid !in states[n].created || sid in states[n].tables.sessions ==> Closes(states[n].mail.log, sid) == []
    ensures sid in states[n].created && sid !in states[n].tables.sessions ==>
              exists k: nat :: k < n && TellsEndpoints(states[k], states[k + 1], sid, Closes(states[n].mail.log, sid))
  {
    EachStepEnds(cfg, states, events, sid);
    ChainEnds(states, n, sid);
  }

  // -------------------------------------------------------- tear-down, hand-over

  /** Nothing in the tables depends on id `id` of connection `x` any more. */
  ghost predicate Cleared(t: RelayTables, id: string, x: AgentId) {
    && SessionsOf(t.sessions, id) == {}
    && (forall k :: k in t.pending ==> !PendingMap.Names(t.pending[k], id))
    && (forall d :: d in t.clients ==> t.clients[d] != x)
    && (forall d :: d in t.webPeers ==> t.webPeers[d] != x)
  }

  ghost predicate LinksDead(t: RelayTables, device: string) {
    forall k, later: int :: k in t.shares && t.shares[k].controlledId == device ==> WebShares.Dead(t.shares[k], later)
  }

  /** A tear-down ends everything that names the id, and touches no other seat. */
  lemma FallClears(s: State, s': State, x: AgentId)
    requires ListedOk(s) && FallStep(s, s') && Falls(s, s', x) && s.agents[x].id != ""
    ensures Cleared(s'.tables, s.agents[x].id, x)
    ensures !s.agents[x].web ==> LinksDead(s'.tables, s.agents[x].id)
    ensures forall d :: d in s.tables.clients && s.tables.clients[d] != x ==>
              d in s'.tables.clients && s'.tables.clients[d] == s.tables.clients[d]
  {
    var now :| s'.tables == TornTables(s, x, now);
  }

  ghost predicate FallsEach(states: seq<State>) {
    && states != [] && states[0].agents == map[]
    && forall i :: 0 <= i < |states| - 1 ==> FallStep(states[i], states[i + 1])
  }

  lemma EachStepFalls(cfg: Config, states: seq<State>, events: seq<Event>)
    requires IsRun(cfg, states, events)
    ensures FallsEach(states)
  {
    forall i | 0 <= i < |states| - 1 ensures FallStep(states[i], states[i + 1]) == true {
      RunStep(cfg, states, events, i);
      StepFalls(states[i], states[i + 1]);
    }
  }

  lemma StepFalls(s: State, s': State)
    requires Keeps(s, s')
    ensures FallStep(s, s') == true
  {
  }

  lemma {:induction false} ChainFalls(states: seq<State>, n: nat, x: AgentId) returns (k: nat)
    requires FallsEach(states) && n < |states| && x in states[n].agents && states[n].agents[x].phase == Torn
    ensures k < n && Falls(states[k], states[k + 1], x)
  {
    k := n - 1;
    if !Falls(states[k], states[k + 1], x) { k := ChainFalls(states, k, x); }
  }

  /** A connection that is torn was torn down at one earlier step. */
  lemma FellBefore(cfg: Config, states: seq<State>, events: seq<Event>, n: nat, x: AgentId) returns (k: nat)
    requires IsRun(cfg, states, events) && n < |states| && x in states[n].agents && states[n].agents[x].phase == Torn
    ensures k < n && Falls(states[k], states[k + 1], x)
  {
    EachStepFalls(cfg, states, events);
    k := ChainFalls(states, n, x);
  }

  lemma GrownTorn(s: State, t: State, u: State, x: AgentId)
    requires Falls(s, t, x) && Grows(t, u)
    ensures x in u.agents && u.agents[x].phase == Torn
  {
  }

  /** Closing twice does nothing: no connection is torn down two times. */
  lemma TornOnce(cfg: Config, states: seq<State>, events: seq<Event>, i: nat, j: nat, x: AgentId)
    requires IsRun(cfg, states, events) && i < |events| && j < |events|
    requires events[i].FinishClose? && events[j].FinishClose? && events[i].a == x == events[j].a
    ensures i == j
  {
    var first, second := if i < j then i else j, if i < j then j else i;
    if first < second {
      FinishFalls(states[first], events[first]);
      RunGrows(cfg, states, events, first + 1, second);
      GrownTorn(states[first], states[first + 1], states[second], x);
      assert false;
    }
  }

  lemma FinishFalls(s: State, e: Event)
    requires e.FinishClose? && Enabled(s, e)
    ensures Falls(s, Apply(s, e), e.a)
  {
  }
}
