/** What one tear-down comes to, table by table: what goes with the connection, what
    is spared, and who is told. */
module RelayTearDown {
  import opened Protocol
  import opened Registry
  import opened RelaySystem
  import opened RelayInvariants
  import opened RelaySteps
  import opened RelayRuns
  import opened RelayAlone
  import PendingMap
  import WebShares

  /** The connection has an id to take along: a visitor always, a device once it has
      registered. */
  predicate HasName(agent: Agent) {
    agent.web || agent.id != ""
  }

  /** Exactly the sessions with `id` at one end are gone, if it counts. */
  ghost predicate SessionsGo(t: RelayTables, t': RelayTables, id: string, counts: bool) {
    forall k ::
      && (k in t'.sessions <==>
            k in t.sessions && !(counts && (t.sessions[k].controllerId == id || t.sessions[k].controlledId == id)))
      && (k in t'.sessions ==> t'.sessions[k] == t.sessions[k])
  }

  /** And exactly the requests of `id` or for it. */
  ghost predicate RequestsGo(t: RelayTables, t': RelayTables, id: string, counts: bool) {
    forall k ::
      && (k in t'.pending <==>
            k in t.pending && !(counts && (t.pending[k].controllerId == id || t.pending[k].controlledId == id)))
      && (k in t'.pending ==> t'.pending[k] == t.pending[k])
  }

  /** The seat goes only if it is still that of `a`. */
  ghost predicate SeatGoes(t: RelayTables, t': RelayTables, a: AgentId, agent: Agent) {
    && (forall k ::
          && (k in t'.clients <==> k in t.clients && !(!agent.web && agent.id != "" && k == agent.id && t.clients[k] == a))
          && (k in t'.clients ==> t'.clients[k] == t.clients[k]))
    && (forall k ::
          && (k in t'.webPeers <==> k in t.webPeers && !(agent.web && k == agent.id && t.webPeers[k] == a))
          && (k in t'.webPeers ==> t'.webPeers[k] == t.webPeers[k]))
  }

  /** Exactly the links of a device that leaves are revoked. */
  ghost predicate LinksGo(t: RelayTables, t': RelayTables, agent: Agent, now: int) {
    && t'.shares.Keys == t.shares.Keys
    && forall k :: k in t.shares ==>
         t'.shares[k] == if !agent.web && agent.id != "" && t.shares[k].controlledId == agent.id
                         then t.shares[k].(revoked := true, revokedAt := now) else t.shares[k]
  }

  /** `to` is an end of the session and still listed: the controller as a device or a
      visitor, the controlled one as a device. */
  predicate IsLeft(t: RelayTables, session: Session, to: string) {
    || (to == session.controllerId && (to in t.clients || to in t.webPeers))
    || (to == session.controlledId && to in t.clients)
  }

  /** `m` tells `to` that its session is over. */
  predicate TellsEnd(s: State, t: RelayTables, a: AgentId, session: Session, to: string, m: Sent)
    requires a in s.agents
  {
    && IsLeft(t, session, to)
    && m == Sent(ListedAs(t, to),
                 Envelope(SessionClose, session.id, RELAY, to,
                          Closed(session.id, if s.agents[a].web then "web peer disconnected" else "peer disconnected")),
                 a, |s.agents[a].inbox|)
  }

  /** `m` tells `to` that session `sid` has gone. */
  predicate TellsGone(s: State, s': State, a: AgentId, sid: string, to: string, m: Sent)
    requires a in s.agents
  {
    && sid in s.tables.sessions && sid !in s'.tables.sessions
    && TellsEnd(s, s'.tables, a, s.tables.sessions[sid], to, m)
  }

  ghost predicate TellsSomeEnd(s: State, s': State, a: AgentId, m: Sent)
    requires a in s.agents
  {
    exists sid, to :: TellsGone(s, s', a, sid, to, m)
  }

  /** The mail of the tear-down: nothing but ends told of the sessions that go. */
  ghost predicate OnlyEndsTold(s: State, s': State, a: AgentId)
    requires a in s.agents
  {
    && s.mail.log <= s'.mail.log
    && forall n :: |s.mail.log| <= n < |s'.mail.log| ==> TellsSomeEnd(s, s', a, s'.mail.log[n])
  }

  /** And every one of those ends that is left. */
  ghost predicate AllEndsTold(s: State, s': State, a: AgentId)
    requires a in s.agents
  {
    forall sid, to :: sid in s.tables.sessions && sid !in s'.tables.sessions && IsLeft(s'.tables, s.tables.sessions[sid], to) ==>
      exists n :: |s.mail.log| <= n < |s'.mail.log| && TellsGone(s, s', a, sid, to, s'.mail.log[n])
  }

  lemma TornTablesField(s: State, a: AgentId, now: int)
    requires a in s.agents
    ensures var t, t', agent := s.tables, TornTables(s, a, now), s.agents[a];
      && SessionsGo(t, t', agent.id, HasName(agent)) == true && RequestsGo(t, t', agent.id, HasName(agent)) == true
      && SeatGoes(t, t', a, agent) == true && LinksGo(t, t', agent, now) == true
  {
  }

  /** Exactly the sessions walked through are gone. */
  lemma WalkedAreGone(s: State, a: AgentId, order: seq<string>, now: int)
    requires a in s.agents && Enumerates(order, Ended(s, a))
    ensures forall sid :: sid in order <==> sid in s.tables.sessions && sid !in TornTables(s, a, now).sessions
  {
    TornTablesField(s, a, now);
  }

  lemma OneNoticeTells(s: State, t: RelayTables, a: AgentId, session: Session, m: nat)
    requires a in s.agents && m < |CloseNotices(t, session, TearDownReason(s.agents[a]))|
    ensures var notice := CloseNotices(t, session, TearDownReason(s.agents[a]))[m];
      TellsEnd(s, t, a, session, notice.envelope.to, Sent(AgentOf(notice.recipient), notice.envelope, a, |s.agents[a].inbox|)) == true
  {
  }

  lemma EndHasNotice(s: State, t: RelayTables, a: AgentId, session: Session, to: string) returns (m: nat)
    requires a in s.agents && IsLeft(t, session, to)
    ensures m < |CloseNotices(t, session, TearDownReason(s.agents[a]))|
    ensures CloseNotices(t, session, TearDownReason(s.agents[a]))[m].envelope.to == to
  {
    m := if to == session.controllerId && (to in t.clients || to in t.webPeers) then 0
         else |CloseNotices(t, session, TearDownReason(s.agents[a]))| - 1;
  }

  lemma {:induction false} NoticeAmongAll(t: RelayTables, sessions: map<string, Session>, order: seq<string>, reason: string,
                                          k: nat, m: nat) returns (n: nat)
    requires forall sid :: sid in order ==> sid in sessions
    requires k < |order| && m < |CloseNotices(t, sessions[order[k]], reason)|
    ensures n < |AllCloseNotices(t, sessions, order, reason)|
    ensures AllCloseNotices(t, sessions, order, reason)[n] == CloseNotices(t, sessions[order[k]], reason)[m]
  {
    var last := |order| - 1;
    var before := AllCloseNotices(t, sessions, order[..last], reason);
    if k == last {
      n := |before| + m;
    } else {
      n := NoticeAmongAll(t, sessions, order[..last], reason, k, m);
    }
  }

  /** The notices of the sessions walked through, as offered. */
  function TornMail(s: State, t: RelayTables, a: AgentId, order: seq<string>): seq<Sent>
    requires a in s.agents && forall sid :: sid in order ==> sid in s.tables.sessions
  {
    Addressed(AllCloseNotices(t, s.tables.sessions, order, TearDownReason(s.agents[a])), a, |s.agents[a].inbox|)
  }

  lemma MailTells(s: State, t: RelayTables, a: AgentId, order: seq<string>, n: nat) returns (sid: string, to: string)
    requires a in s.agents && (forall sid :: sid in order ==> sid in s.tables.sessions) && n < |TornMail(s, t, a, order)|
    ensures sid in order && TellsEnd(s, t, a, s.tables.sessions[sid], to, TornMail(s, t, a, order)[n]) == true
  {
    var k, m := AllNoticesFrom(t, s.tables.sessions, order, TearDownReason(s.agents[a]), n);
    sid := order[k];
    OneNoticeTells(s, t, a, s.tables.sessions[sid], m);
    to := CloseNotices(t, s.tables.sessions[sid], TearDownReason(s.agents[a]))[m].envelope.to;
  }

  lemma EndHasMail(s: State, t: RelayTables, a: AgentId, order: seq<string>, sid: string, to: string) returns (n: nat)
    requires a in s.agents && (forall sid :: sid in order ==> sid in s.tables.sessions)
    requires sid in order && IsLeft(t, s.tables.sessions[sid], to)
    ensures n < |TornMail(s, t, a, order)|
    ensures TellsEnd(s, t, a, s.tables.sessions[sid], to, TornMail(s, t, a, order)[n]) == true
  {
    var k :| 0 <= k < |order| && order[k] == sid;
    var m := EndHasNotice(s, t, a, s.tables.sessions[sid], to);
    OneNoticeTells(s, t, a, s.tables.sessions[sid], m);
    n := NoticeAmongAll(t, s.tables.sessions, order, TearDownReason(s.agents[a]), k, m);
  }

  lemma EndsTold(s: State, s': State, a: AgentId, order: seq<string>)
    requires a in s.agents && (forall sid :: sid in order ==> sid in s.tables.sessions)
    requires forall sid :: sid in order <==> sid in s.tables.sessions && sid !in s'.tables.sessions
    requires s'.mail.log == s.mail.log + TornMail(s, s'.tables, a, order)
    ensures OnlyEndsTold(s, s', a) == true && AllEndsTold(s, s', a) == true
  {
    forall n | |s.mail.log| <= n < |s'.mail.log|
      ensures TellsSomeEnd(s, s', a, s'.mail.log[n])
    {
      var sid, to := MailTells(s, s'.tables, a, order, n - |s.mail.log|);
      assert TellsGone(s, s', a, sid, to, s'.mail.log[n]);
    }
    forall sid, to | sid in s.tables.sessions && sid !in s'.tables.sessions && IsLeft(s'.tables, s.tables.sessions[sid], to)
      ensures exists n :: |s.mail.log| <= n < |s'.mail.log| && TellsGone(s, s', a, sid, to, s'.mail.log[n])
    {
      var n := EndHasMail(s, s'.tables, a, order, sid, to);
      assert TellsGone(s, s', a, sid, to, s'.mail.log[|s.mail.log| + n]);
    }
  }

  /** A connection that closes takes with it its seat, if it still has it, exactly the
      sessions and requests that name its id, and, if it is a device, its links, which
      are revoked; nothing else in the tables is different.  Every end of those
      sessions that is still listed is told, with the reason for a device or for a
      visitor, and nobody else is told anything. */
  lemma TearDownAlone(s: State, a: AgentId, order: seq<string>, now: int, coins: set<nat>)
    requires a in s.agents && Enumerates(order, Ended(s, a)) && BoxesOk(s.mail) == true
    ensures var s', agent := TearDown(s, a, order, now, coins), s.agents[a];
      && s'.agents == s.agents[a := agent.(phase := Torn)] && s'.codes == s.codes
      && SessionsGo(s.tables, s'.tables, agent.id, HasName(agent)) && RequestsGo(s.tables, s'.tables, agent.id, HasName(agent))
      && SeatGoes(s.tables, s'.tables, a, agent) && LinksGo(s.tables, s'.tables, agent, now)
      && OnlyEndsTold(s, s', a) && AllEndsTold(s, s', a)
  {
    var s' := TearDown(s, a, order, now, coins);
    TornTablesField(s, a, now);
    WalkedAreGone(s, a, order, now);
    TornLog(s, s', a, order, now, coins);
    EndsTold(s, s', a, order);
  }
}
