/** The relay's shared tables and the critical sections that change them.

    Every handler of the relay is a sequence of short sections run under one
    mutex.  Each function below is one such section.  `C` and `P` stand for
    connections of devices and of web visitors: the server class instantiates
    them with its objects, the interleaving model with abstract identities. */
module Registry {
  import opened Protocol
  import PendingMap
  import WebShares

  type PendingRequest = PendingMap.PendingRequest

  datatype Session = Session(
    id: string, controllerId: string, controlledId: string,
    mode: string, inputAllowed: bool, createdAt: int, lastActivityAt: int)

  datatype Tables<C(==), P(==)> = Tables(
    clients: map<string, C>,
    webPeers: map<string, P>,
    sessions: map<string, Session>,
    pending: PendingMap.Table,
    shares: WebShares.Table)

  predicate Names(session: Session, id: string) {
    session.controllerId == id || session.controlledId == id
  }

  // ------------------------------------------------------ register, unregister

  /** The capacity check comes first: a full relay refuses replacements too. */
  predicate Full<C(==), P(==)>(t: Tables<C, P>, maxClients: int) {
    maxClients > 0 && |t.clients| >= maxClients
  }

  /** The connection that loses its place when `c` registers `device`. */
  function Displaced<C(==), P(==)>(t: Tables<C, P>, device: string, c: C): Option<C> {
    if device in t.clients && t.clients[device] != c then Some(t.clients[device]) else None
  }

  function Register<C(==), P(==)>(t: Tables<C, P>, device: string, c: C): Tables<C, P> {
    t.(clients := t.clients[device := c])
  }

  /** Sessions, pending requests and links go by device id, whoever holds it. */
  function Unregister<C(==), P(==)>(t: Tables<C, P>, device: string, c: C, now: int): Tables<C, P> {
    if device == "" then t
    else
      Tables(
        if device in t.clients && t.clients[device] == c then t.clients - {device} else t.clients,
        t.webPeers,
        WithoutSessionsOf(t.sessions, device),
        PendingMap.DropDevice(t.pending, device),
        WebShares.AfterDisconnect(t.shares, device, now))
  }

  function UnregisterWebPeer<C(==), P(==)>(t: Tables<C, P>, id: string, p: P): Tables<C, P> {
    t.(webPeers := if id in t.webPeers && t.webPeers[id] == p then t.webPeers - {id} else t.webPeers,
       sessions := WithoutSessionsOf(t.sessions, id),
       pending := PendingMap.DropDevice(t.pending, id))
  }

  function WithoutSessionsOf(sessions: map<string, Session>, id: string): map<string, Session> {
    map k | k in sessions && !Names(sessions[k], id) :: sessions[k]
  }

  function SessionsOf(sessions: map<string, Session>, id: string): set<string> {
    set k | k in sessions && Names(sessions[k], id)
  }

  function AddWebPeer<C(==), P(==)>(t: Tables<C, P>, id: string, p: P): Tables<C, P> {
    t.(webPeers := t.webPeers[id := p])
  }

  /** The tables once several devices are gone at once. */
  function WithoutDevices<C(==), P(==)>(t: Tables<C, P>, gone: set<string>, now: int): Tables<C, P> {
    Tables(
      t.clients - gone,
      t.webPeers,
      map k | k in t.sessions && t.sessions[k].controllerId !in gone && t.sessions[k].controlledId !in gone :: t.sessions[k],
      map k | k in t.pending && t.pending[k].controllerId !in gone && t.pending[k].controlledId !in gone :: t.pending[k],
      map k | k in t.shares ::
        if t.shares[k].controlledId in gone then t.shares[k].(revoked := true, revokedAt := now) else t.shares[k])
  }

  /** Tearing devices down one by one, in any order, comes to the same. */
  lemma WithoutOneMore<C, P>(t: Tables<C, P>, gone: set<string>, device: string, now: int)
    requires device != "" && device in t.clients && device !in gone
    ensures Unregister(WithoutDevices(t, gone, now), device, t.clients[device], now) == WithoutDevices(t, gone + {device}, now)
  {
    var u, v := Unregister(WithoutDevices(t, gone, now), device, t.clients[device], now), WithoutDevices(t, gone + {device}, now);
    assert u.clients == v.clients;
    assert u.sessions == v.sessions;
    assert u.pending == v.pending;
    assert u.shares == v.shares;
  }

  lemma WithoutNone<C, P>(t: Tables<C, P>, now: int)
    ensures WithoutDevices(t, {}, now) == t
  {
    var u := WithoutDevices(t, {}, now);
    assert u.clients == t.clients && u.sessions == t.sessions && u.pending == t.pending && u.shares == t.shares;
  }

  // ------------------------------------------------------------------ sessions

  function NewSession(sid: string, controller: string, controlled: string,
                      mode: string, inputAllowed: bool, now: int): Session {
    Session(sid, controller, controlled, NormalizeMode(mode), inputAllowed && AllowsInput(mode), now, now)
  }

  predicate Online<C(==), P(==)>(t: Tables<C, P>, id: string) {
    id in t.clients || id in t.webPeers
  }

  predicate CanCreate<C(==), P(==)>(t: Tables<C, P>, controller: string, controlled: string) {
    Online(t, controller) && controlled in t.clients
  }

  function AddSession<C(==), P(==)>(t: Tables<C, P>, session: Session): Tables<C, P> {
    t.(sessions := t.sessions[session.id := session])
  }

  function Touch<C(==), P(==)>(t: Tables<C, P>, sid: string, now: int): Tables<C, P> {
    if sid in t.sessions
    then t.(sessions := t.sessions[sid := t.sessions[sid].(lastActivityAt := now)])
    else t
  }

  function RemoveSession<C(==), P(==)>(t: Tables<C, P>, sid: string): Tables<C, P> {
    t.(sessions := t.sessions - {sid})
  }

  // ------------------------------------------------------------ close notices

  datatype Recipient<C, P> = Device(client: C) | Visitor(peer: P)
  datatype Notice<C, P> = Notice(recipient: Recipient<C, P>, envelope: Envelope)

  function CloseEnvelope(sid: string, to: string, reason: string): Envelope {
    Envelope(SessionClose, sid, RELAY, to, Closed(sid, reason))
  }

  /** Who hears about a removed session: each endpoint that is registered. */
  function CloseNotices<C(==), P(==)>(t: Tables<C, P>, session: Session, reason: string): seq<Notice<C, P>> {
    var toController := CloseEnvelope(session.id, session.controllerId, reason);
    var toControlled := CloseEnvelope(session.id, session.controlledId, reason);
    (if session.controllerId in t.clients then [Notice(Device(t.clients[session.controllerId]), toController)]
     else if session.controllerId in t.webPeers then [Notice(Visitor(t.webPeers[session.controllerId]), toController)]
     else [])
    + (if session.controlledId in t.clients then [Notice(Device(t.clients[session.controlledId]), toControlled)] else [])
  }

  /** The notices for the sessions `order`, one session after the other. */
  function AllCloseNotices<C(==), P(==)>(t: Tables<C, P>, sessions: map<string, Session>,
                                         order: seq<string>, reason: string): seq<Notice<C, P>>
    requires forall sid :: sid in order ==> sid in sessions
  {
    if order == [] then []
    else AllCloseNotices(t, sessions, order[..|order| - 1], reason)
         + CloseNotices(t, sessions[order[|order| - 1]], reason)
  }

  /** Whom notices go to depends on the connections listed, and on nothing else. */
  lemma {:induction false} NoticesDependOnConnections<C, P>(t: Tables<C, P>, u: Tables<C, P>, sessions: map<string, Session>,
                                                            order: seq<string>, reason: string)
    requires t.clients == u.clients && t.webPeers == u.webPeers
    requires forall sid :: sid in order ==> sid in sessions
    ensures AllCloseNotices(t, sessions, order, reason) == AllCloseNotices(u, sessions, order, reason)
  {
    if order != [] { NoticesDependOnConnections(t, u, sessions, order[..|order| - 1], reason); }
  }

  /** `order` walks through exactly the elements of `s`, each once. */
  ghost predicate Enumerates(order: seq<string>, s: set<string>) {
    && (forall x :: x in order <==> x in s)
    && (forall i, j :: 0 <= i < j < |order| ==> order[i] != order[j])
  }

  lemma NoticesOfConnections<C, P>(t: Tables<C, P>, u: Tables<C, P>, session: Session, reason: string)
    requires t.clients == u.clients && t.webPeers == u.webPeers
    ensures CloseNotices(t, session, reason) == CloseNotices(u, session, reason)
  {
  }

  lemma EnumeratesMore(order: seq<string>, s: set<string>, k: string)
    requires Enumerates(order, s) && k !in s
    ensures Enumerates(order + [k], s + {k})
  {
  }

  lemma NoticesMore<C, P>(t: Tables<C, P>, sessions: map<string, Session>, order: seq<string>, k: string, reason: string)
    requires forall sid :: sid in order + [k] ==> sid in sessions
    ensures AllCloseNotices(t, sessions, order + [k], reason)
         == AllCloseNotices(t, sessions, order, reason) + CloseNotices(t, sessions[k], reason)
  {
    assert (order + [k])[..|order|] == order;
  }

  /** The sessions left when those of `id` outside `keys` have been dropped. */
  function PartlyWithout(sessions: map<string, Session>, id: string, keys: set<string>): map<string, Session> {
    map k | k in sessions && (k in keys || !Names(sessions[k], id)) :: sessions[k]
  }

  /** Half-way through dropping the sessions of `id`: those outside `keys` are
      gone, in this order, and `told` are the notices so far. */
  ghost predicate Dropping<C, P>(t: Tables<C, P>, before: map<string, Session>, id: string, keys: set<string>,
                                         order: seq<string>, told: seq<Notice<C, P>>, reason: string) {
    && keys <= before.Keys
    && Enumerates(order, SessionsOf(before, id) - keys)
    && told == AllCloseNotices(t, before, order, reason)
  }

  lemma DroppingMore<C, P>(t: Tables<C, P>, before: map<string, Session>, id: string, keys: set<string>,
                           order: seq<string>, told: seq<Notice<C, P>>, reason: string, k: string)
    requires Dropping(t, before, id, keys, order, told, reason) && k in keys
    ensures Names(before[k], id) ==>
              && Dropping(t, before, id, keys - {k}, order + [k], told + CloseNotices(t, before[k], reason), reason) == true
              && PartlyWithout(before, id, keys - {k}) == PartlyWithout(before, id, keys) - {k}
    ensures !Names(before[k], id) ==>
              && Dropping(t, before, id, keys - {k}, order, told, reason) == true
              && PartlyWithout(before, id, keys - {k}) == PartlyWithout(before, id, keys)
  {
    if Names(before[k], id) {
      assert SessionsOf(before, id) - (keys - {k}) == SessionsOf(before, id) - keys + {k};
      EnumeratesMore(order, SessionsOf(before, id) - keys, k);
      NoticesMore(t, before, order, k, reason);
    } else {
      assert SessionsOf(before, id) - (keys - {k}) == SessionsOf(before, id) - keys;
    }
  }

  // ------------------------------------------------- every interleaving at once

  /** One critical section, with everything it is told from outside. */
  datatype Section<C, P> =
    | DoRegister(device: string, client: C, maxClients: int)
    | DoUnregister(device: string, client: C, now: int)
    | DoAddWebPeer(id: string, peer: P)
    | DoUnregisterWebPeer(id: string, peer: P)
    | DoCreateSession(sid: string, controller: string, controlled: string, mode: string, inputAllowed: bool, now: int)
    | DoTouch(sid: string, now: int)
    | DoRemoveSession(sid: string)
    | DoPending(op: PendingMap.Op)
    | DoShare(shareOp: WebShares.Op)

  function Perform<C(==), P(==)>(t: Tables<C, P>, s: Section<C, P>): Tables<C, P> {
    match s
    case DoRegister(device, c, maxClients) => if Full(t, maxClients) then t else Register(t, device, c)
    case DoUnregister(device, c, now) => Unregister(t, device, c, now)
    case DoAddWebPeer(id, p) => AddWebPeer(t, id, p)
    case DoUnregisterWebPeer(id, p) => UnregisterWebPeer(t, id, p)
    case DoCreateSession(sid, controller, controlled, mode, inputAllowed, now) =>
      if CanCreate(t, controller, controlled)
      then AddSession(t, NewSession(sid, controller, controlled, mode, inputAllowed, now)) else t
    case DoTouch(sid, now) => Touch(t, sid, now)
    case DoRemoveSession(sid) => RemoveSession(t, sid)
    case DoPending(op) => t.(pending := PendingMap.Apply(t.pending, op))
    case DoShare(op) => t.(shares := WebShares.Apply(t.shares, op))
  }

  function Empty<C(==), P(==)>(): Tables<C, P> {
    Tables(map[], map[], map[], map[], map[])
  }

  function PerformAll<C(==), P(==)>(sections: seq<Section<C, P>>): Tables<C, P> {
    if sections == [] then Empty()
    else Perform(PerformAll(sections[..|sections| - 1]), sections[|sections| - 1])
  }

  predicate SessionWellFormed(session: Session) {
    IsMode(session.mode) && (session.inputAllowed ==> session.mode == MODE_VIEW_CONTROL)
  }

  /** No stored session has an endpoint that is not registered. */
  predicate EndpointsOnline<C(==), P(==)>(t: Tables<C, P>) {
    forall sid :: sid in t.sessions ==>
      && t.sessions[sid].id == sid
      && t.sessions[sid].controlledId in t.clients
      && Online(t, t.sessions[sid].controllerId)
      && SessionWellFormed(t.sessions[sid])
  }

  lemma SectionKeepsEndpoints<C, P>(t: Tables<C, P>, s: Section<C, P>)
    requires EndpointsOnline(t)
    ensures EndpointsOnline(Perform(t, s))
  {
  }

  /** Whatever handlers run and however their sections interleave, sessions
      only ever join endpoints that are registered, in a proper mode, with
      input only under view-control.  No assumption about ids is needed. */
  lemma {:induction false} EndpointsOnlineInEveryInterleaving<C, P>(sections: seq<Section<C, P>>)
    ensures EndpointsOnline(PerformAll(sections))
  {
    if sections != [] {
      var prefix := sections[..|sections| - 1];
      EndpointsOnlineInEveryInterleaving(prefix);
      SectionKeepsEndpoints(PerformAll(prefix), sections[|sections| - 1]);
    }
  }

  predicate WithinCapacity<C(==), P(==)>(t: Tables<C, P>, maxClients: int) {
    maxClients > 0 ==> |t.clients| <= maxClients
  }

  lemma RegisterWithinCapacity<C, P>(t: Tables<C, P>, device: string, c: C, maxClients: int)
    requires WithinCapacity(t, maxClients) && !Full(t, maxClients)
    ensures WithinCapacity(Register(t, device, c), maxClients)
  {
    assert Register(t, device, c).clients.Keys == t.clients.Keys + {device};
  }

  /** A positive limit is never exceeded, in any interleaving. */
  lemma {:induction false} CapacityInEveryInterleaving<C, P>(sections: seq<Section<C, P>>, maxClients: int)
    requires forall s :: s in sections && s.DoRegister? ==> s.maxClients == maxClients
    ensures WithinCapacity(PerformAll(sections), maxClients)
  {
    if sections != [] {
      var prefix, s := sections[..|sections| - 1], sections[|sections| - 1];
      CapacityInEveryInterleaving(prefix, maxClients);
      var before, after := PerformAll(prefix), PerformAll(sections);
      if s.DoRegister? {
        if !Full(before, maxClients) { RegisterWithinCapacity(before, s.device, s.client, maxClients); }
      } else if s.DoUnregister? {
        assert after.clients.Keys <= before.clients.Keys;
        SubsetSize(after.clients.Keys, before.clients.Keys);
      }
    }
  }

  lemma SubsetSize<T>(a: set<T>, b: set<T>)
    requires a <= b
    ensures |a| <= |b|
  {
    assert |b| == |a| + |b - a| by { assert b == a + (b - a); }
  }

  /** Both ends of every pending request are registered. */
  predicate PendingOnline<C(==), P(==)>(t: Tables<C, P>) {
    forall k :: k in t.pending ==> Online(t, t.pending[k].controllerId) && t.pending[k].controlledId in t.clients
  }

  /** The store is the one section that can break this, and it does so exactly
      when an endpoint left between the look-up of the target and the store: the
      property holds per handler but not in every interleaving. */
  lemma PendingOnlineBreaksIff<C, P>(t: Tables<C, P>, s: Section<C, P>)
    requires PendingOnline(t)
    ensures PendingOnline(Perform(t, s)) <==>
            (s.DoPending? && s.op.StoreOp? ==> Online(t, s.op.controllerId) && s.op.controlledId in t.clients)
  {
    if s.DoPending? && s.op.StoreOp? {
      var key := PendingMap.Key(s.op.controllerId, s.op.controlledId);
      assert key in Perform(t, s).pending;
    }
  }

  // ------------------------------------------------------ what sections achieve

  /** A second connection takes over a device id: after the displaced one has
      been torn down the id belongs to the newcomer and nothing of the old
      session state survives. */
  lemma HandOver<C, P>(t: Tables<C, P>, device: string, newcomer: C, now: int, later: int)
    requires Displaced(t, device, newcomer).Some? && device != ""
    ensures
      var prior := Displaced(t, device, newcomer).value;
      var after := Unregister(Register(t, device, newcomer), device, prior, now);
      && after.clients == t.clients[device := newcomer]
      && SessionsOf(after.sessions, device) == {}
      && (forall k :: k in after.sessions <==> k in t.sessions && !Names(t.sessions[k], device))
      && (forall k :: k in after.pending <==> k in t.pending && !PendingMap.Names(t.pending[k], device))
      && (forall k :: k in after.shares <==> k in t.shares)
      && (forall k :: k in after.shares && after.shares[k].controlledId == device ==> WebShares.Dead(after.shares[k], later))
      && (forall k :: k in t.shares && t.shares[k].controlledId != device ==> after.shares[k] == t.shares[k])
  {
  }

  /** Tearing a connection down removes the sessions of its device id even if
      the id belongs to another connection by then (or the connection was never
      admitted: the id is set before admission is decided).  The sessions of a
      live connection survive exactly when it has none. */
  lemma TearDownSparesSessionsIff<C, P>(t: Tables<C, P>, device: string, c: C, now: int)
    requires device != "" && device in t.clients && t.clients[device] != c
    ensures Unregister(t, device, c, now).clients == t.clients
    ensures Unregister(t, device, c, now).sessions == t.sessions <==> SessionsOf(t.sessions, device) == {}
  {
    var kept := WithoutSessionsOf(t.sessions, device);
    if SessionsOf(t.sessions, device) == {} {
      assert forall k :: k in t.sessions ==> k !in SessionsOf(t.sessions, device);
      assert kept == t.sessions;
    } else {
      var k :| k in SessionsOf(t.sessions, device);
      assert k in t.sessions && k !in kept;
    }
  }

  /** Each endpoint that is registered is told once, and nobody else. */
  lemma NoticesPerRole<C, P>(t: Tables<C, P>, session: Session, reason: string)
    ensures var notices := CloseNotices(t, session, reason);
      && |notices| == (if Online(t, session.controllerId) then 1 else 0)
                      + (if session.controlledId in t.clients then 1 else 0)
      && (Online(t, session.controllerId) ==> notices[0].envelope.to == session.controllerId)
      && (session.controlledId in t.clients ==>
            && notices[|notices| - 1].envelope.to == session.controlledId
            && notices[|notices| - 1].recipient == Device(t.clients[session.controlledId]))
      && (forall i :: 0 <= i < |notices| ==>
            notices[i].envelope.kind == SessionClose && notices[i].envelope.sessionId == session.id)
  {
  }

  lemma NoticeShape<C, P>(t: Tables<C, P>, session: Session, reason: string, n: nat)
    requires n < |CloseNotices(t, session, reason)|
    ensures var notice := CloseNotices(t, session, reason)[n];
      && notice.envelope == CloseEnvelope(session.id, notice.envelope.to, reason)
      && Names(session, notice.envelope.to)
      && (|| (notice.envelope.to in t.clients && notice.recipient == Device(t.clients[notice.envelope.to]))
          || (notice.envelope.to in t.webPeers && notice.recipient == Visitor(t.webPeers[notice.envelope.to])))
  {
  }
}
