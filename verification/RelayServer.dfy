/** The relay's objects: connections with their fields and bounded send queues,
    and the server with its tables.  Methods run to completion here; each is one
    critical section, or one handler made of several with nothing in between.
    What they do to the tables is stated by the functions of `Registry`,
    `WebShares` and `AuthCode`; what they send, by the ghost `log`. */
module RelayServer {
  import opened Protocol
  import opened Registry
  import R = RelaySystem
  import PendingMap
  import WebShares
  import AuthCode

  // ---------------------------------------------------------------- connections

  class Client {
    var deviceId: string
    var deviceName: string
    var role: string
    var authCode: string
    var authExpiry: int
    var lastMessageAt: int
    var queue: seq<Envelope>
    var closed: bool

    constructor (now: int)
      ensures deviceId == "" && queue == [] && !closed && Slot() == AuthCode.EMPTY && lastMessageAt == now
    {
      deviceId, deviceName, role := "", "", "";
      authCode, authExpiry := "", 0;
      lastMessageAt := now;
      queue, closed := [], false;
    }

    function Slot(): AuthCode.Slot
      reads this
    {
      AuthCode.Slot(authCode, authExpiry)
    }

    /** Never blocks: a full queue refuses.  On a closed connection with room
        the outcome is open. */
    method TrySend(msg: Envelope) returns (ok: bool)
      modifies this`queue
      ensures queue == if ok then old(queue) + [msg] else old(queue)
      ensures ok ==> |old(queue)| < R.QUEUE_CAPACITY
      ensures !closed && |old(queue)| < R.QUEUE_CAPACITY ==> ok
    {
      if |queue| >= R.QUEUE_CAPACITY {
        return false;
      }
      ok := true;
      if closed {
        ok := *;
      }
      if ok {
        queue := queue + [msg];
      }
    }

    method Introduce(payload: Payload)
      requires payload.Registration?
      modifies this`deviceId, this`deviceName, this`role
      ensures deviceId == payload.deviceId && deviceName == payload.deviceName
      ensures role == if payload.role == "" then ROLE_PEER else payload.role
    {
      deviceId := payload.deviceId;
      deviceName := payload.deviceName;
      role := payload.role;
      if role == "" {
        role := ROLE_PEER;
      }
    }

    method ValidateAuthCode(code: string, now: int) returns (ok: bool)
      modifies this`authCode, this`authExpiry
      ensures ok <==> old(authCode) == "" || (now <= old(authExpiry) && code == old(authCode))
      ensures authCode == if ok || now > old(authExpiry) then "" else old(authCode)
      ensures Slot() == AuthCode.AfterJudge(old(Slot()), code, now)
    {
      if authCode == "" {
        return true;
      }
      if now > authExpiry {
        authCode, authExpiry := "", 0;
        return false;
      }
      if code != authCode {
        return false;
      }
      authCode, authExpiry := "", 0;
      return true;
    }

    method PublishAuthCode(payload: Payload, now: int) returns (ok: bool)
      modifies this`authCode, this`authExpiry
      ensures ok == (deviceId != "" && payload.AuthCode? && AuthCode.IsSixDigits(payload.code))
      ensures ok ==> authCode == payload.code && authExpiry == now + AuthCode.CodeTtl(payload.codeTtlMillis)
      ensures Slot() == if ok then AuthCode.Publish(payload.code, payload.codeTtlMillis, now) else old(Slot())
    {
      if deviceId == "" || !payload.AuthCode? || payload.code == "" {
        return false;
      }
      ok := AuthCode.IsSixDigitCode(payload.code);
      if ok {
        var ttl := MillisToDuration(payload.codeTtlMillis);
        if ttl <= 0 {
          ttl := AuthCode.DEFAULT_TTL;
        }
        if ttl > AuthCode.MAX_TTL {
          ttl := AuthCode.MAX_TTL;
        }
        authCode, authExpiry := payload.code, now + ttl;
      }
    }
  }

  class WebPeer {
    const id: string
    const name: string
    const shareToken: string
    const controlled: string
    const mode: string
    var queue: seq<Envelope>
    var closed: bool

    constructor (id: string, share: WebShares.WebShare)
      ensures this.id == id && shareToken == share.token && controlled == share.controlledId
      ensures mode == NormalizeMode(share.mode) && name == R.VISITOR_NAME && queue == [] && !closed
    {
      this.id := id;
      name := R.VISITOR_NAME;
      shareToken := share.token;
      controlled := share.controlledId;
      mode := NormalizeMode(share.mode);
      queue, closed := [], false;
    }

    method TrySend(msg: Envelope) returns (ok: bool)
      modifies this`queue
      ensures queue == if ok then old(queue) + [msg] else old(queue)
      ensures ok ==> |old(queue)| < R.QUEUE_CAPACITY
      ensures !closed && |old(queue)| < R.QUEUE_CAPACITY ==> ok
    {
      if |queue| >= R.QUEUE_CAPACITY {
        return false;
      }
      ok := true;
      if closed {
        ok := *;
      }
      if ok {
        queue := queue + [msg];
      }
    }
  }

  type ServerTables = Tables<Client, WebPeer>
  type ServerNotice = Notice<Client, WebPeer>

  // -------------------------------------------------------------------- the server

  /** The tables after `client` has taken its seat and the displaced
      connection, unless it was closed before, has been torn down; that one goes
      by `priorId`, which is `device` unless it has registered again since. */
  function Seated(t: ServerTables, device: string, client: Client, spared: bool, priorId: string, now: int): ServerTables {
    var displaced := Displaced(t, device, client);
    var seated := Registry.Register(t, device, client);
    if displaced.Some? && !spared then Registry.Unregister(seated, priorId, displaced.value, now) else seated
  }

  /** What register comes to, once the connection is admitted: it has the seat, and
      a displaced connection that was still open is torn down, with whatever
      names the id that one goes by. */
  ghost predicate Registers(t: ServerTables, u: ServerTables, device: string, client: Client, spared: bool, priorId: string,
                            order: seq<string>, before: seq<ServerNotice>, after: seq<ServerNotice>, now: int) {
    && u == Seated(t, device, client, spared, priorId, now)
    && Enumerates(order, if spared || priorId == "" then {} else SessionsOf(t.sessions, priorId))
    && after == before + AllCloseNotices(u, t.sessions, order, "peer disconnected")
  }

  function RecipientAt(t: ServerTables, id: string): Recipient<Client, WebPeer>
    requires Online(t, id)
  {
    if id in t.clients then Device(t.clients[id]) else Visitor(t.webPeers[id])
  }

  /** What an accepted confirm agrees on: the stored request decides the mode. */
  function Agreed(t: ServerTables, controller: string, controlled: string, confirm: Payload, freshId: string, now: int): Session
    requires confirm.Confirm?
  {
    var request := PendingMap.Lookup(t.pending, controller, controlled);
    var mode := if request.Some? then request.value.mode else NormalizeMode(confirm.acceptedMode);
    NewSession(freshId, controller, controlled, mode, confirm.confirmInput && AllowsInput(mode), now)
  }

  /** The request of the pair, if any, is taken out. */
  function Consumed(t: ServerTables, controller: string, controlled: string): ServerTables {
    t.(pending := PendingMap.Remove(t.pending, controller, controlled))
  }

  /** An accepting answer of `client` took effect: the pair's request is gone, the
      session agreed on is stored, and its two ends are told, the controller first;
      the controlled one is the one to send its view. */
  ghost predicate Accepted(t: ServerTables, u: ServerTables, client: Client, deviceId: string, deviceName: string,
                           controller: string, peerId: string, peerName: string, confirm: Payload, freshId: string, now: int,
                           before: seq<ServerNotice>, after: seq<ServerNotice>)
    requires confirm.Confirm?
  {
    var session := Agreed(t, controller, deviceId, confirm, freshId, now);
    && Online(t, controller) && u == AddSession(Consumed(t, controller, deviceId), session)
    && after == before
         + [Notice(RecipientAt(t, controller),
                   Envelope(SessionReady, freshId, RELAY, controller,
                            Ready(freshId, deviceId, deviceName, session.mode, session.inputAllowed, ROLE_CONTROLLER, false)))]
         + [Notice(Device(client),
                   Envelope(SessionReady, freshId, RELAY, deviceId,
                            Ready(freshId, peerId, peerName, session.mode, session.inputAllowed, ROLE_CONTROLLED, true)))]
  }

  /** What forwarding to `target` within session `sid` does. */
  ghost predicate Forwards(t: ServerTables, u: ServerTables, before: seq<ServerNotice>, after: seq<ServerNotice>,
                           msg: Envelope, from: string, target: string, now: int) {
    && msg.sessionId in t.sessions && Online(t, target)
    && u == t.(sessions := t.sessions[msg.sessionId := t.sessions[msg.sessionId].(lastActivityAt := now)])
    && after == before + [Notice(RecipientAt(t, target), msg.(from := from, to := target))]
  }

  /** From request to confirm, whatever happened in between: if the last that
      concerned the pair was a request, the session comes in the mode of that one,
      with input exactly if the mode has it and the confirm grants it.  If it was
      not, because the request was answered or one of the two has left, the confirm
      alone decides.  Either way a second confirm finds no request. */
  lemma RequestThenConfirm(t: ServerTables, ops: seq<PendingMap.Op>, controller: string, controlled: string,
                           confirm: Payload, freshId: string, now: int)
    requires confirm.Confirm? && t.pending == PendingMap.Run(ops)
    requires PendingMap.NulFree(controller) && PendingMap.NulFree(controlled)
    ensures var session := Agreed(t, controller, controlled, confirm, freshId, now);
      && (forall i: nat :: PendingMap.LastStore(ops, i, controller, controlled) ==>
            session == Session(freshId, controller, controlled, NormalizeMode(ops[i].mode),
                               confirm.confirmInput && ops[i].mode == MODE_VIEW_CONTROL, now, now))
      && ((forall i: nat :: !PendingMap.LastStore(ops, i, controller, controlled)) ==>
            session == Session(freshId, controller, controlled, NormalizeMode(confirm.acceptedMode),
                               confirm.confirmInput && confirm.acceptedMode == MODE_VIEW_CONTROL, now, now))
      && PendingMap.Lookup(PendingMap.Remove(t.pending, controller, controlled), controller, controlled) == None
  {
    PendingMap.LookupIsLatest(ops, controller, controlled);
    PendingMap.LatestIsLastStore(ops, controller, controlled);
  }

  // -------------------------------------------- several connections, one by one

  /** Connections and the ids they go by. */
  type Leavers = seq<(string, Client)>

  function Members(gone: Leavers): set<Client> {
    set p | p in gone :: p.1
  }

  function Ids(gone: Leavers): set<string> {
    set p | p in gone :: p.0
  }

  lemma OneMoreId(gone: Leavers, last: (string, Client))
    ensures Ids(gone + [last]) == Ids(gone) + {last.0}
  {
    assert forall p :: p in gone + [last] <==> p in gone || p == last;
    assert last in gone + [last];
  }

  lemma OneMoreMember(gone: Leavers, last: (string, Client))
    ensures Members(gone + [last]) == Members(gone) + {last.1}
  {
    assert forall p :: p in gone + [last] <==> p in gone || p == last;
    assert last in gone + [last];
  }

  /** The first `i` of several connections. */
  function FirstOnes(all: seq<Client>, i: nat): set<Client>
    requires i <= |all|
  {
    set c | c in all[..i]
  }

  lemma OneMoreFirst(all: seq<Client>, i: nat)
    requires i < |all|
    ensures FirstOnes(all, i + 1) == FirstOnes(all, i) + {all[i]}
  {
    assert all[..i + 1] == all[..i] + [all[i]];
  }

  /** Of the first `i` connections those outside `wasClosed` have left; `shut` are
      the closed ones now. */
  predicate Walked(all: seq<Client>, i: nat, wasClosed: set<Client>, shut: set<Client>, gone: Leavers)
    requires i <= |all|
  {
    Members(gone) == FirstOnes(all, i) - wasClosed && shut == wasClosed + FirstOnes(all, i)
  }

  lemma WalkedMore(all: seq<Client>, i: nat, wasClosed: set<Client>, shut: set<Client>, gone: Leavers, id: string)
    requires i < |all| && Walked(all, i, wasClosed, shut, gone) == true
    ensures var left := if all[i] in shut then [] else [(id, all[i])];
      Walked(all, i + 1, wasClosed, shut + {all[i]}, gone + left) == true
  {
    OneMoreFirst(all, i);
    if all[i] in shut {
      assert gone + [] == gone;
    } else {
      OneMoreMember(gone, (id, all[i]));
    }
  }

  /** The tables when connections have been torn down one after the other. */
  function AfterLeaves(t: ServerTables, gone: Leavers, now: int): ServerTables {
    if gone == [] then t
    else
      var last := gone[|gone| - 1];
      Registry.Unregister(AfterLeaves(t, gone[..|gone| - 1], now), last.0, last.1, now)
  }

  /** The sessions that end with number `k`. */
  function EndedBy(t: ServerTables, gone: Leavers, k: nat, now: int): set<string>
    requires k < |gone|
  {
    if gone[k].0 == "" then {} else SessionsOf(AfterLeaves(t, gone[..k], now).sessions, gone[k].0)
  }

  /** `orders[k]` walks through the sessions that end with number `k`. */
  ghost predicate LeaveInOrder(t: ServerTables, gone: Leavers, orders: seq<seq<string>>, now: int) {
    |orders| == |gone| && forall k :: 0 <= k < |gone| ==> Enumerates(orders[k], EndedBy(t, gone, k, now))
  }

  /** The close notices of all of them: those of each one's sessions, to the ends
      that are still listed by then. */
  ghost function LeaveNotices(t: ServerTables, gone: Leavers, orders: seq<seq<string>>, now: int): seq<ServerNotice>
    requires LeaveInOrder(t, gone, orders, now)
  {
    if gone == [] then []
    else
      var k := |gone| - 1;
      LeaveShorter(t, gone, orders, now);
      LeaveNotices(t, gone[..k], orders[..k], now)
      + AllCloseNotices(AfterLeaves(t, gone, now), AfterLeaves(t, gone[..k], now).sessions, orders[k], "peer disconnected")
  }

  lemma LeaveShorter(t: ServerTables, gone: Leavers, orders: seq<seq<string>>, now: int)
    requires LeaveInOrder(t, gone, orders, now) && gone != []
    ensures LeaveInOrder(t, gone[..|gone| - 1], orders[..|gone| - 1], now)
    ensures Enumerates(orders[|gone| - 1], EndedBy(t, gone, |gone| - 1, now)) == true
  {
    var before := gone[..|gone| - 1];
    forall k | 0 <= k < |before| ensures Enumerates(orders[..|gone| - 1][k], EndedBy(t, before, k, now)) {
      assert before[..k] == gone[..k] && before[k] == gone[k];
      assert Enumerates(orders[k], EndedBy(t, gone, k, now));
    }
    assert Enumerates(orders[|gone| - 1], EndedBy(t, gone, |gone| - 1, now));
  }

  /** One more leaves. */
  lemma LeaveOneMore(t: ServerTables, u: ServerTables, gone: Leavers, orders: seq<seq<string>>, now: int,
                     last: (string, Client), order: seq<string>)
    requires LeaveInOrder(t, gone, orders, now) == true && u == AfterLeaves(t, gone, now)
    requires Enumerates(order, if last.0 == "" then {} else SessionsOf(u.sessions, last.0)) == true
    ensures var u' := AfterLeaves(t, gone + [last], now);
      && u' == Registry.Unregister(u, last.0, last.1, now)
      && LeaveInOrder(t, gone + [last], orders + [order], now) == true
      && LeaveNotices(t, gone + [last], orders + [order], now)
         == LeaveNotices(t, gone, orders, now) + AllCloseNotices(u', u.sessions, order, "peer disconnected")
  {
    var more, moreOrders := gone + [last], orders + [order];
    assert more[..|gone|] == gone && moreOrders[..|gone|] == orders;
    forall k | 0 <= k < |more| ensures Enumerates(moreOrders[k], EndedBy(t, more, k, now)) == true {
      if k < |gone| {
        assert more[..k] == gone[..k] && more[k] == gone[k];
        assert Enumerates(orders[k], EndedBy(t, gone, k, now));
      }
    }
  }

  /** Connections have left one after the other, from tables `t` to `u`, and the log
      has grown by their notices. */
  ghost predicate HaveLeft(t: ServerTables, u: ServerTables, gone: Leavers, orders: seq<seq<string>>,
                           before: seq<ServerNotice>, after: seq<ServerNotice>, now: int) {
    && LeaveInOrder(t, gone, orders, now)
    && u == AfterLeaves(t, gone, now)
    && after == before + LeaveNotices(t, gone, orders, now)
  }

  lemma IsLeft(t: ServerTables, u: ServerTables, gone: Leavers, orders: seq<seq<string>>,
               before: seq<ServerNotice>, after: seq<ServerNotice>, now: int)
    requires LeaveInOrder(t, gone, orders, now) == true && u == AfterLeaves(t, gone, now)
    requires after == before + LeaveNotices(t, gone, orders, now)
    ensures HaveLeft(t, u, gone, orders, before, after, now) == true
  {
  }

  lemma Associative<T>(a: seq<T>, b: seq<T>, c: seq<T>)
    ensures a + b + c == a + (b + c)
  {
  }

  lemma OneMoreHasLeft(t: ServerTables, u: ServerTables, u': ServerTables, gone: Leavers, orders: seq<seq<string>>,
                       before: seq<ServerNotice>, told: seq<ServerNotice>, last: (string, Client), order: seq<string>, now: int)
    requires HaveLeft(t, u, gone, orders, before, told, now) && u' == Registry.Unregister(u, last.0, last.1, now)
    requires Enumerates(order, if last.0 == "" then {} else SessionsOf(u.sessions, last.0)) == true
    ensures HaveLeft(t, u', gone + [last], orders + [order], before,
                     told + AllCloseNotices(u', u.sessions, order, "peer disconnected"), now) == true
  {
    LeaveOneMore(t, u, gone, orders, now, last, order);
    Associative(before, LeaveNotices(t, gone, orders, now), AllCloseNotices(u', u.sessions, order, "peer disconnected"));
    IsLeft(t, u', gone + [last], orders + [order], before,
           told + AllCloseNotices(u', u.sessions, order, "peer disconnected"), now);
  }

  lemma FirstOf(order: seq<string>)
    ensures order == [] || exists x :: x in order
  {
    if order != [] { assert order[0] in order; }
  }

  lemma NothingToWalk(order: seq<string>)
    requires Enumerates(order, {})
    ensures order == []
  {
    FirstOf(order);
  }

  lemma {:induction false} SessionsLeft(t: ServerTables, gone: Leavers, now: int, sid: string)
    ensures var u := AfterLeaves(t, gone, now);
      && (sid in u.sessions <==> sid in t.sessions && forall p :: p in gone && p.0 != "" ==> !Names(t.sessions[sid], p.0))
      && (sid in u.sessions ==> u.sessions[sid] == t.sessions[sid])
  {
    if gone != [] {
      SessionsLeft(t, gone[..|gone| - 1], now, sid);
      assert gone == gone[..|gone| - 1] + [gone[|gone| - 1]];
    }
  }

  /** A session is told about when the first of its ends leaves, and at no other
      leave. */
  lemma ToldWithTheFirst(t: ServerTables, gone: Leavers, orders: seq<seq<string>>, now: int, sid: string, k: nat)
    requires LeaveInOrder(t, gone, orders, now) && k < |gone|
    ensures sid in orders[k] <==>
              && sid in t.sessions && gone[k].0 != "" && Names(t.sessions[sid], gone[k].0)
              && forall j :: 0 <= j < k && gone[j].0 != "" ==> !Names(t.sessions[sid], gone[j].0)
  {
    SessionsLeft(t, gone[..k], now, sid);
    assert Enumerates(orders[k], EndedBy(t, gone, k, now));
    assert forall j :: 0 <= j < k ==> gone[..k][j] == gone[j];
  }

  /** When connections listed under their own ids leave, it does not matter in
      which order they do. */
  lemma {:induction false} LeaveTogether(t: ServerTables, gone: Leavers, now: int)
    requires forall p :: p in gone ==> p.0 != "" && p.0 in t.clients && t.clients[p.0] == p.1
    requires forall i, j :: 0 <= i < j < |gone| ==> gone[i].0 != gone[j].0
    ensures AfterLeaves(t, gone, now) == WithoutDevices(t, Ids(gone), now)
  {
    if gone == [] {
      WithoutNone(t, now);
    } else {
      var before, last := gone[..|gone| - 1], gone[|gone| - 1];
      LeaveTogether(t, before, now);
      WithoutOneMore(t, Ids(before), last.0, now);
      OneMoreId(before, last);
      assert gone == before + [last];
    }
  }

  class Server {
    const maxClients: int
    const sharedToken: string

    var clients: map<string, Client>
    var webPeers: map<string, WebPeer>
    var sessions: map<string, Session>
    var pending: PendingMap.Table
    var shares: WebShares.Table

    /** Everything ever offered to a queue, in order. */
    ghost var log: seq<ServerNotice>

    constructor (maxClients: int, sharedToken: string)
      ensures this.maxClients == maxClients && this.sharedToken == sharedToken
      ensures Valid() && Current() == Empty() && log == []
    {
      this.maxClients, this.sharedToken := maxClients, sharedToken;
      clients, webPeers, sessions, pending, shares := map[], map[], map[], map[], map[];
      log := [];
    }

    function Current(): ServerTables
      reads this
    {
      Tables(clients, webPeers, sessions, pending, shares)
    }

    /** Nobody is listed under an empty id, and sessions join listed ones. */
    ghost predicate Valid()
      reads this
    {
      && "" !in clients
      && (forall id :: id in webPeers ==> webPeers[id].id == id && id != "")
      && EndpointsOnline(Current())
    }

    /** Devices are listed under their own ids: no connection has registered again
        under another one. */
    ghost predicate OwnIds()
      reads this, clients.Values
    {
      forall id :: id in clients ==> clients[id].deviceId == id
    }

    // ---------------------------------------------------------------- sending

    method OfferClient(c: Client, msg: Envelope) returns (ok: bool)
      modifies this`log, c`queue
      ensures log == old(log) + [Notice(Device(c), msg)]
      ensures c.queue == if ok then old(c.queue) + [msg] else old(c.queue)
      ensures !c.closed && |old(c.queue)| < R.QUEUE_CAPACITY ==> ok
    {
      ok := c.TrySend(msg);
      log := log + [Notice(Device(c), msg)];
    }

    method OfferWebPeer(p: WebPeer, msg: Envelope) returns (ok: bool)
      modifies this`log, p`queue
      ensures log == old(log) + [Notice(Visitor(p), msg)]
      ensures p.queue == if ok then old(p.queue) + [msg] else old(p.queue)
      ensures !p.closed && |old(p.queue)| < R.QUEUE_CAPACITY ==> ok
    {
      ok := p.TrySend(msg);
      log := log + [Notice(Visitor(p), msg)];
    }

    method NotifySessionClosed(session: Session, reason: string)
      modifies this`log, clients.Values`queue, webPeers.Values`queue
      ensures log == old(log) + CloseNotices(Current(), session, reason)
      ensures forall n :: old(|log|) <= n < |log| ==>
                var e := log[n].envelope;
                && e == Envelope(SessionClose, session.id, RELAY, e.to, Closed(session.id, reason))
                && (e.to == session.controllerId || e.to == session.controlledId)
                && (if e.to in clients then log[n].recipient == Device(clients[e.to])
                    else e.to in webPeers && log[n].recipient == Visitor(webPeers[e.to]))
      ensures |log| == old(|log|) + (if session.controllerId in clients || session.controllerId in webPeers then 1 else 0)
                                  + (if session.controlledId in clients then 1 else 0)
    {
      if session.controllerId in clients {
        var _ := OfferClient(clients[session.controllerId], CloseEnvelope(session.id, session.controllerId, reason));
      } else if session.controllerId in webPeers {
        var _ := OfferWebPeer(webPeers[session.controllerId], CloseEnvelope(session.id, session.controllerId, reason));
      }
      if session.controlledId in clients {
        var _ := OfferClient(clients[session.controlledId], CloseEnvelope(session.id, session.controlledId, reason));
      }
    }

    /** The notices go to the connections listed, which are those of `t`. */
    method EndSession(sid: string, reason: string, ghost t: ServerTables)
      requires sid in sessions && t.clients == clients && t.webPeers == webPeers
      modifies this`sessions, this`log, clients.Values`queue, webPeers.Values`queue
      ensures sessions == old(sessions) - {sid}
      ensures log == old(log) + CloseNotices(t, old(sessions)[sid], reason)
    {
      var session := sessions[sid];
      sessions := sessions - {sid};
      NotifySessionClosed(session, reason);
      NoticesOfConnections(t, Current(), session, reason);
    }

    // -------------------------------------------------- tear-down, registration

    /** One session on the walk over those of `id`: out if it names `id`. */
    method EndNamed(k: string, id: string, reason: string, ghost t: ServerTables, ghost before: map<string, Session>,
                    ghost keys: set<string>, ghost order: seq<string>, ghost told: seq<ServerNotice>)
      returns (ghost walked: seq<string>, ghost said: seq<ServerNotice>)
      requires k in keys && Dropping(t, before, id, keys, order, told, reason) == true
      requires sessions == PartlyWithout(before, id, keys) && t.clients == clients && t.webPeers == webPeers
      modifies this`sessions, this`log, clients.Values`queue, webPeers.Values`queue
      ensures Dropping(t, before, id, keys - {k}, order + walked, told + said, reason) == true
      ensures sessions == PartlyWithout(before, id, keys - {k})
      ensures log == old(log) + said
    {
      DroppingMore(t, before, id, keys, order, told, reason, k);
      walked, said := [], [];
      var session := sessions[k];
      if session.controllerId == id || session.controlledId == id {
        walked, said := [k], CloseNotices(t, session, reason);
        EndSession(k, reason, t);
      } else {
        assert order + walked == order && told + said == told;
      }
    }

    /** The sessions of `id` go, one by one in no particular order, and their
        endpoints, as far as listed, are told. */
    method DropSessionsOf(id: string, reason: string) returns (ghost order: seq<string>)
      modifies this`sessions, this`log, clients.Values`queue, webPeers.Values`queue
      ensures sessions == WithoutSessionsOf(old(sessions), id)
      ensures Enumerates(order, SessionsOf(old(sessions), id)) == true
      ensures log == old(log) + AllCloseNotices(Current(), old(sessions), order, reason)
    {
      order := [];
      ghost var t := Current();
      ghost var before := sessions;
      ghost var told := [];
      var keys := sessions.Keys;
      while keys != {}
        invariant Dropping(t, before, id, keys, order, told, reason) == true
        invariant sessions == PartlyWithout(before, id, keys)
        invariant log == old(log) + told
        decreases |keys|
      {
        var k :| k in keys;
        ghost var walked, said := EndNamed(k, id, reason, t, before, keys, order, told);
        order, told := order + walked, told + said;
        keys := keys - {k};
      }
      NoticesDependOnConnections(t, Current(), before, order, reason);
    }

    method DropPendingOf(id: string)
      modifies this`pending
      ensures pending == PendingMap.DropDevice(old(pending), id)
    {
      ghost var before := pending;
      var keys := pending.Keys;
      while keys != {}
        invariant keys <= before.Keys
        invariant forall k :: k in pending <==> k in before && (k in keys || !PendingMap.Names(before[k], id))
        invariant forall k :: k in pending ==> pending[k] == before[k]
        decreases |keys|
      {
        var k :| k in keys;
        keys := keys - {k};
        if pending[k].controllerId == id || pending[k].controlledId == id {
          pending := pending - {k};
        }
      }
    }

    method RevokeSharesOf(id: string, now: int)
      modifies this`shares
      ensures shares == WebShares.AfterDisconnect(old(shares), id, now)
    {
      ghost var before := shares;
      var keys := shares.Keys;
      while keys != {}
        invariant keys <= before.Keys == shares.Keys
        invariant forall k :: k in keys ==> shares[k] == before[k]
        invariant forall k :: k in before && k !in keys ==> shares[k] == WebShares.AfterDisconnect(before, id, now)[k]
        decreases |keys|
      {
        var k :| k in keys;
        keys := keys - {k};
        if shares[k].controlledId == id {
          shares := shares[k := shares[k].(revoked := true, revokedAt := now)];
        }
      }
    }

    method DropTracesOf(device: string, now: int) returns (ghost order: seq<string>)
      modifies this, clients.Values`queue, webPeers.Values`queue
      ensures clients == old(clients) && webPeers == old(webPeers)
      ensures sessions == WithoutSessionsOf(old(sessions), device)
      ensures pending == PendingMap.DropDevice(old(pending), device)
      ensures shares == WebShares.AfterDisconnect(old(shares), device, now)
      ensures Enumerates(order, SessionsOf(old(sessions), device)) == true
      ensures log == old(log) + AllCloseNotices(Current(), old(sessions), order, "peer disconnected")
    {
      order := DropSessionsOf(device, "peer disconnected");
      ghost var t := Current();
      DropPendingOf(device);
      RevokeSharesOf(device, now);
      NoticesDependOnConnections(t, Current(), old(sessions), order, "peer disconnected");
    }

    method Unregister(client: Client, now: int) returns (ghost order: seq<string>)
      requires Valid()
      modifies this, clients.Values`queue, webPeers.Values`queue
      ensures Valid()
      ensures Current() == Registry.Unregister(old(Current()), client.deviceId, client, now)
      ensures Enumerates(order, if client.deviceId == "" then {} else SessionsOf(old(sessions), client.deviceId)) == true
      ensures log == old(log) + AllCloseNotices(Current(), old(sessions), order, "peer disconnected")
    {
      if client.deviceId == "" {
        return [];
      }
      ghost var t := Current();
      if client.deviceId in clients && clients[client.deviceId] == client {
        clients := clients - {client.deviceId};
      }
      order := DropTracesOf(client.deviceId, now);
      assert Current() == Registry.Unregister(t, client.deviceId, client, now);
      SectionKeepsEndpoints(t, DoUnregister(client.deviceId, client, now));
    }

    /** A connection closes once, and takes its device's traces along. */
    method Close(client: Client, now: int) returns (ghost order: seq<string>)
      requires Valid()
      modifies this, client`closed, clients.Values`queue, webPeers.Values`queue
      ensures Valid() && client.closed
      ensures Current() == if old(client.closed) then old(Current())
                           else Registry.Unregister(old(Current()), client.deviceId, client, now)
      ensures Enumerates(order, if old(client.closed) || client.deviceId == "" then {}
                                else SessionsOf(old(sessions), client.deviceId)) == true
      ensures log == old(log) + AllCloseNotices(Current(), old(sessions), order, "peer disconnected")
    {
      order := [];
      if !client.closed {
        client.closed := true;
        order := Unregister(client, now);
      }
    }

    /** One critical section: capacity first, replacements included. */
    method TakeSeat(client: Client) returns (ok: bool, displaced: Option<Client>)
      requires Valid() && client.deviceId != ""
      modifies this`clients
      ensures Valid()
      ensures ok <==> maxClients <= 0 || old(|clients|) < maxClients
      ensures Current() == if ok then Registry.Register(old(Current()), client.deviceId, client) else old(Current())
      ensures displaced == if ok then Displaced(old(Current()), client.deviceId, client) else None
    {
      if maxClients > 0 && |clients| >= maxClients {
        return false, None;
      }
      ghost var t := Current();
      displaced := None;
      if client.deviceId in clients && clients[client.deviceId] != client {
        displaced := Some(clients[client.deviceId]);
        clients := clients - {client.deviceId};
      }
      clients := clients[client.deviceId := client];
      assert Current() == Registry.Register(t, client.deviceId, client);
      SectionKeepsEndpoints(t, DoRegister(client.deviceId, client, 0));
      ok := true;
    }

    method Register(client: Client, now: int) returns (ok: bool, ghost order: seq<string>)
      requires Valid()
      modifies this, clients.Values`closed, clients.Values`queue, webPeers.Values`queue, client`queue
      ensures Valid()
      ensures ok <==> client.deviceId != "" && (maxClients <= 0 || old(|clients|) < maxClients)
      ensures !ok ==> Current() == old(Current()) && log == old(log)
      ensures ok ==>
                var displaced := Displaced(old(Current()), client.deviceId, client);
                var spared := displaced.None? || old(displaced.value.closed);
                var priorId := if displaced.None? then "" else old(displaced.value.deviceId);
                && (displaced.Some? ==> displaced.value.closed)
                && Registers(old(Current()), Current(), client.deviceId, client, spared, priorId, order, old(log), log, now) == true
      ensures forall id :: id in clients ==>
                (id == client.deviceId && clients[id] == client) || (id in old(clients) && clients[id] == old(clients)[id])
    {
      order := [];
      if client.deviceId == "" {
        return false, [];
      }
      var displaced;
      ok, displaced := TakeSeat(client);
      if displaced.Some? {
        order := Close(displaced.value, now);
      }
    }

    // ------------------------------------------------------- sections on sessions

    method CreateSession(controllerId: string, controlledId: string, mode: string, inputAllowed: bool,
                         freshId: string, now: int) returns (session: Option<Session>)
      requires Valid() && freshId != ""
      modifies this`sessions
      ensures Valid()
      ensures session.Some? <==> (controllerId in clients || controllerId in webPeers) && controlledId in clients
      ensures session.Some? ==>
                session.value == Session(freshId, controllerId, controlledId, NormalizeMode(mode),
                                         inputAllowed && mode == MODE_VIEW_CONTROL, now, now)
      ensures Current() == if session.Some? then AddSession(old(Current()), session.value) else old(Current())
    {
      if controllerId !in clients && controllerId !in webPeers {
        return None;
      }
      if controlledId !in clients {
        return None;
      }
      var made := Session(freshId, controllerId, controlledId, NormalizeMode(mode),
                          inputAllowed && AllowsInput(mode), now, now);
      sessions := sessions[freshId := made];
      session := Some(made);
    }

    method StorePendingRequest(controllerId: string, controlledId: string, mode: string, now: int)
      modifies this`pending
      ensures pending == PendingMap.Store(old(pending), controllerId, controlledId, mode, now)
    {
      pending := pending[PendingMap.Key(controllerId, controlledId) :=
                           PendingMap.PendingRequest(controllerId, controlledId, NormalizeMode(mode), now)];
    }

    /** Looking a request up takes it out. */
    method ConsumePendingRequest(controllerId: string, controlledId: string) returns (request: Option<PendingRequest>)
      modifies this`pending
      ensures request == PendingMap.Lookup(old(pending), controllerId, controlledId)
      ensures pending == PendingMap.Remove(old(pending), controllerId, controlledId)
    {
      var key := PendingMap.Key(controllerId, controlledId);
      request := if key in pending then Some(pending[key]) else None;
      pending := pending - {key};
    }

    method TouchSession(sid: string, now: int)
      requires Valid()
      modifies this`sessions
      ensures Valid()
      ensures Current() == Touch(old(Current()), sid, now)
    {
      if sid in sessions {
        sessions := sessions[sid := sessions[sid].(lastActivityAt := now)];
      }
    }

    // ---------------------------------------------------------------- device handlers

    predicate Lawful(payload: Payload) {
      payload.Registration? && payload.deviceId != "" && (sharedToken == "" || payload.token == sharedToken)
    }

    /** A lawful registration: first the id and names, then the seat. */
    method Enrol(client: Client, payload: Payload, now: int) returns (ok: bool, ghost order: seq<string>)
      requires Valid() && payload.Registration? && payload.deviceId != ""
      modifies this, client`deviceId, client`deviceName, client`role, client`queue
      modifies clients.Values`closed, clients.Values`queue, webPeers.Values`queue
      ensures Valid()
      ensures ok <==> maxClients <= 0 || old(|clients|) < maxClients
      ensures client.deviceId == payload.deviceId && client.deviceName == payload.deviceName
      ensures client.role == if payload.role == "" then ROLE_PEER else payload.role
      ensures !ok ==> Current() == old(Current()) && log == old(log)
      ensures ok ==>
                var displaced := Displaced(old(Current()), payload.deviceId, client);
                var spared := displaced.None? || old(displaced.value.closed);
                var priorId := if displaced.None? then "" else old(displaced.value.deviceId);
                Registers(old(Current()), Current(), payload.deviceId, client, spared, priorId, order, old(log), log, now) == true
      ensures forall id :: id in clients ==>
                (id == payload.deviceId && clients[id] == client) || (id in old(clients) && clients[id] == old(clients)[id])
    {
      client.Introduce(payload);
      ok, order := Register(client, now);
    }

    /** The connection gets its id and names before it is known whether it is
        admitted; a refusal for capacity leaves them set. */
    method HandleRegister(client: Client, payload: Payload, now: int) returns (ok: bool, ghost order: seq<string>)
      requires Valid()
      modifies this, client`deviceId, client`deviceName, client`role, client`queue
      modifies clients.Values`closed, clients.Values`queue, webPeers.Values`queue
      ensures Valid()
      ensures ok <==> Lawful(payload) && (maxClients <= 0 || old(|clients|) < maxClients)
      ensures if payload.Registration? && payload.deviceId != "" && (sharedToken == "" || payload.token == sharedToken)
        then client.deviceId == payload.deviceId && client.deviceName == payload.deviceName
             && client.role == (if payload.role == "" then ROLE_PEER else payload.role)
        else client.deviceId == old(client.deviceId) && client.deviceName == old(client.deviceName)
             && client.role == old(client.role)
      ensures !ok ==> Current() == old(Current()) && log == old(log)
      ensures ok ==>
                var displaced := Displaced(old(Current()), payload.deviceId, client);
                var spared := displaced.None? || old(displaced.value.closed);
                var priorId := if displaced.None? then "" else old(displaced.value.deviceId);
                Registers(old(Current()), Current(), payload.deviceId, client, spared, priorId, order, old(log), log, now) == true
      ensures old(OwnIds()) && client !in old(clients.Values) ==> OwnIds()
    {
      order := [];
      if !payload.Registration? || payload.deviceId == "" {
        return false, [];
      }
      if sharedToken != "" && payload.token != sharedToken {
        return false, [];
      }
      ok, order := Enrol(client, payload, now);
    }

    method HandleSessionRequest(client: Client, msg: Envelope, now: int) returns (ok: bool)
      requires Valid()
      modifies this`pending, this`log, clients.Values`queue, clients.Values`authCode, clients.Values`authExpiry
      ensures Valid()
      ensures var t, request := old(Current()), msg.payload;
        if client.deviceId == "" || !request.Request? || request.target == "" || request.target !in t.clients then
          !ok && Current() == t && log == old(log)
        else
          var target := t.clients[request.target];
          var passes := old(target.authCode) == ""
                        || (now <= old(target.authExpiry) && request.authCode == old(target.authCode));
          && target.authCode == (if passes || now > old(target.authExpiry) then "" else old(target.authCode))
          && (passes ==>
                && Current() == t.(pending := PendingMap.Store(t.pending, client.deviceId, request.target, request.mode, now))
                && log == old(log)
                     + [Notice(Device(target),
                               msg.(from := client.deviceId, to := request.target,
                                    payload := Request(request.target, NormalizeMode(request.mode), "", client.deviceName,
                                                       client.role, request.mode == MODE_VIEW_CONTROL)))])
          && (!passes ==> !ok && Current() == t && log == old(log))
      ensures client.deviceId in clients && PendingOnline(old(Current())) ==> PendingOnline(Current())
    {
      var request := msg.payload;
      if client.deviceId == "" || !request.Request? || request.target == "" || request.target !in clients {
        return false;
      }
      var target := clients[request.target];
      ok := target.ValidateAuthCode(request.authCode, now);
      if !ok {
        return;
      }
      var mode := NormalizeMode(request.mode);
      StorePendingRequest(client.deviceId, request.target, mode, now);
      var forwarded := msg.(from := client.deviceId, to := request.target,
                            payload := Request(request.target, mode, "", client.deviceName, client.role, AllowsInput(mode)));
      ok := OfferClient(target, forwarded);
    }

    method SendToPeer(id: string, msg: Envelope) returns (ok: bool)
      modifies this`log, clients.Values`queue, webPeers.Values`queue
      ensures id in clients ==> log == old(log) + [Notice(Device(clients[id]), msg)]
      ensures id !in clients && id in webPeers ==> log == old(log) + [Notice(Visitor(webPeers[id]), msg)]
      ensures id !in clients && id !in webPeers ==> !ok && log == old(log)
    {
      if id in clients {
        ok := OfferClient(clients[id], msg);
      } else if id in webPeers {
        ok := OfferWebPeer(webPeers[id], msg);
      } else {
        ok := false;
      }
    }

    function PeerName(id: string): string
      reads this, clients.Values
      requires Online(Current(), id)
    {
      if id in clients then clients[id].deviceName else webPeers[id].name
    }

    /** The id the listed connection goes by. */
    function PeerId(id: string): string
      reads this, clients.Values
      requires Online(Current(), id)
    {
      if id in clients then clients[id].deviceId else webPeers[id].id
    }

    /** Both ends are told; only the controlled one's queue decides the outcome. */
    method Announce(client: Client, session: Session, peerId: string, peerName: string) returns (ok: bool)
      requires Online(Current(), session.controllerId)
      modifies this`log, clients.Values`queue, webPeers.Values`queue, client`queue
      ensures log == old(log)
                + [Notice(RecipientAt(Current(), session.controllerId), R.ReadyToController(session, client.deviceName))]
                + [Notice(Device(client), R.ReadyToControlled(session, peerId, peerName))]
    {
      var _ := SendToPeer(session.controllerId, R.ReadyToController(session, client.deviceName));
      ok := OfferClient(client, R.ReadyToControlled(session, peerId, peerName));
    }

    method AcceptSession(client: Client, controller: string, confirm: Payload, freshId: string, now: int) returns (ok: bool)
      requires Valid() && confirm.Confirm? && Online(Current(), controller) && freshId != ""
      modifies this`pending, this`sessions, this`log, clients.Values`queue, webPeers.Values`queue, client`queue
      ensures Valid()
      ensures if client.deviceId in old(clients)
              then Accepted(old(Current()), Current(), client, client.deviceId, client.deviceName, controller,
                            old(PeerId(controller)), old(PeerName(controller)), confirm, freshId, now, old(log), log) == true
              else !ok && Current() == Consumed(old(Current()), controller, client.deviceId) && log == old(log)
    {
      var peerId, peerName := PeerId(controller), PeerName(controller);
      var request := ConsumePendingRequest(controller, client.deviceId);
      var mode := NormalizeMode(confirm.acceptedMode);
      if request.Some? {
        mode := request.value.mode;
      }
      var made := CreateSession(controller, client.deviceId, mode, confirm.confirmInput && AllowsInput(mode), freshId, now);
      if made.None? {
        return false;
      }
      ok := Announce(client, made.value, peerId, peerName);
    }

    method DeclineSession(client: Client, controller: string, msg: Envelope) returns (ok: bool)
      requires Valid() && Online(Current(), controller)
      modifies this`pending, this`log, clients.Values`queue, webPeers.Values`queue
      ensures Valid() && Current() == Consumed(old(Current()), controller, client.deviceId)
      ensures log == old(log) + [Notice(RecipientAt(old(Current()), controller),
                                        msg.(from := client.deviceId, to := controller))]
    {
      var _ := ConsumePendingRequest(controller, client.deviceId);
      ok := SendToPeer(controller, msg.(from := client.deviceId, to := controller));
    }

    method HandleSessionConfirm(client: Client, msg: Envelope, freshId: string, now: int) returns (ok: bool)
      requires Valid() && freshId != ""
      modifies this`pending, this`sessions, this`log, clients.Values`queue, webPeers.Values`queue, client`queue
      ensures Valid()
      ensures var t, controller := old(Current()), if msg.to == "" then msg.from else msg.to;
        if client.deviceId == "" || !msg.payload.Confirm? || !Online(t, controller) then
          !ok && Current() == t && log == old(log)
        else if !msg.payload.accepted then
          && Current() == Consumed(t, controller, client.deviceId)
          && log == old(log) + [Notice(RecipientAt(t, controller), msg.(from := client.deviceId, to := controller))]
        else if client.deviceId !in t.clients then
          !ok && Current() == Consumed(t, controller, client.deviceId) && log == old(log)
        else
          Accepted(t, Current(), client, client.deviceId, client.deviceName, controller, old(PeerId(controller)),
                   old(PeerName(controller)), msg.payload, freshId, now, old(log), log) == true
    {
      if client.deviceId == "" || !msg.payload.Confirm? {
        return false;
      }
      var controller := if msg.to == "" then msg.from else msg.to;
      if controller !in clients && controller !in webPeers {
        return false;
      }
      if !msg.payload.accepted {
        ok := DeclineSession(client, controller, msg);
      } else {
        ok := AcceptSession(client, controller, msg.payload, freshId, now);
      }
    }

    // ------------------------------------------------------------------ forwarding

    method ForwardSessionMessage(client: Client, msg: Envelope, now: int) returns (ok: bool)
      requires Valid()
      modifies this`sessions, this`log, clients.Values`queue, webPeers.Values`queue
      ensures Valid()
      ensures var t, id := old(Current()), client.deviceId;
        if msg.sessionId in t.sessions && id == t.sessions[msg.sessionId].controllerId
           && Online(t, t.sessions[msg.sessionId].controlledId)
        then Forwards(t, Current(), old(log), log, msg, id, t.sessions[msg.sessionId].controlledId, now)
        else if msg.sessionId in t.sessions && id == t.sessions[msg.sessionId].controlledId != t.sessions[msg.sessionId].controllerId
                && Online(t, t.sessions[msg.sessionId].controllerId)
        then Forwards(t, Current(), old(log), log, msg, id, t.sessions[msg.sessionId].controllerId, now)
        else !ok && Current() == t && log == old(log)
    {
      if msg.sessionId !in sessions {
        return false;
      }
      var session := sessions[msg.sessionId];
      var target;
      if client.deviceId == session.controllerId {
        target := session.controlledId;
      } else if client.deviceId == session.controlledId {
        target := session.controllerId;
      } else {
        return false;
      }
      if target !in clients && target !in webPeers {
        return false;
      }
      TouchSession(msg.sessionId, now);
      ok := SendToPeer(target, msg.(from := client.deviceId, to := target));
    }

    /** Mouse and keyboard: input must be allowed and the sender the controller. */
    method ForwardInputMessage(client: Client, msg: Envelope, now: int) returns (ok: bool)
      requires Valid()
      modifies this`sessions, this`log, clients.Values`queue, webPeers.Values`queue
      ensures Valid()
      ensures var t := old(Current());
        if msg.sessionId in t.sessions && t.sessions[msg.sessionId].inputAllowed
           && client.deviceId == t.sessions[msg.sessionId].controllerId
        then t.sessions[msg.sessionId].controlledId in t.clients
             && Forwards(t, Current(), old(log), log, msg, client.deviceId, t.sessions[msg.sessionId].controlledId, now)
        else !ok && Current() == t && log == old(log)
    {
      if msg.sessionId !in sessions || !sessions[msg.sessionId].inputAllowed
         || client.deviceId != sessions[msg.sessionId].controllerId {
        return false;
      }
      ok := ForwardSessionMessage(client, msg, now);
    }

    method ForwardStreamControlMessage(client: Client, msg: Envelope, now: int) returns (ok: bool)
      requires Valid()
      modifies this`sessions, this`log, clients.Values`queue, webPeers.Values`queue
      ensures Valid()
      ensures var t := old(Current());
        if msg.sessionId in t.sessions && client.deviceId == t.sessions[msg.sessionId].controllerId
        then t.sessions[msg.sessionId].controlledId in t.clients
             && Forwards(t, Current(), old(log), log, msg, client.deviceId, t.sessions[msg.sessionId].controlledId, now)
        else !ok && Current() == t && log == old(log)
    {
      if msg.sessionId !in sessions || client.deviceId != sessions[msg.sessionId].controllerId {
        return false;
      }
      ok := ForwardSessionMessage(client, msg, now);
    }

    /** A visitor's input and stream control: straight to the controlled device. */
    method ForwardWebMessage(peer: WebPeer, msg: Envelope, now: int) returns (ok: bool)
      requires Valid() && ControllerOnly(msg.kind)
      modifies this`sessions, this`log, clients.Values`queue, webPeers.Values`queue
      ensures Valid()
      ensures var t := old(Current());
        if msg.sessionId in t.sessions && (IsInput(msg.kind) ==> t.sessions[msg.sessionId].inputAllowed)
           && peer.id == t.sessions[msg.sessionId].controllerId
        then t.sessions[msg.sessionId].controlledId in t.clients
             && Forwards(t, Current(), old(log), log, msg, peer.id, t.sessions[msg.sessionId].controlledId, now)
        else !ok && Current() == t && log == old(log)
    {
      if msg.sessionId !in sessions {
        return false;
      }
      var session := sessions[msg.sessionId];
      if IsInput(msg.kind) && !session.inputAllowed {
        return false;
      }
      if peer.id != session.controllerId || session.controlledId !in clients {
        return false;
      }
      TouchSession(msg.sessionId, now);
      ok := OfferClient(clients[session.controlledId], msg.(from := peer.id, to := session.controlledId));
    }

    /** Anyone who names a session closes it: the caller is not looked at. */
    method HandleSessionClose(msg: Envelope, reason: string) returns (ok: bool)
      requires Valid()
      modifies this`sessions, this`log, clients.Values`queue, webPeers.Values`queue
      ensures Valid()
      ensures ok <==> msg.sessionId != ""
      ensures var t := old(Current());
        if ok && msg.sessionId in t.sessions
        then Current() == RemoveSession(t, msg.sessionId)
             && log == old(log) + CloseNotices(t, t.sessions[msg.sessionId], reason)
        else Current() == t && log == old(log)
    {
      if msg.sessionId == "" {
        return false;
      }
      ok := true;
      ghost var t := Current();
      if msg.sessionId in sessions {
        EndSession(msg.sessionId, reason, t);
      }
    }

    // ------------------------------------------------------------- links, visitors

    method HandleWebShareCreate(client: Client, spec: Payload, freshId: string, freshToken: string, now: int)
      returns (ok: bool)
      modifies this`shares
      ensures ok <==> client.deviceId != "" && spec.ShareSpec?
      ensures ok ==>
                && freshToken in shares && shares == old(shares)[freshToken := shares[freshToken]]
                && var share := shares[freshToken];
                && share.id == freshId && share.token == freshToken && share.controlledId == client.deviceId
                && share.controlledName == client.deviceName && share.shareLabel == spec.shareLabel
                && (share.mode == MODE_VIEW_CONTROL <==> spec.shareMode == MODE_VIEW_CONTROL)
                && share.createdAt == now && share.expiresAt == now + WebShares.ShareTtl(spec.shareTtlMillis)
                && !share.revoked
      ensures shares == if ok
        then WebShares.Create(old(shares), WebShares.NewShare(freshId, freshToken, client.deviceId, client.deviceName,
                                                              spec.shareMode, spec.shareLabel, spec.shareTtlMillis, now))
        else old(shares)
    {
      if client.deviceId == "" || !spec.ShareSpec? {
        return false;
      }
      var ttl := WebShares.ShareTtl(spec.shareTtlMillis);
      shares := shares[freshToken := WebShares.WebShare(
                         freshId, freshToken, client.deviceId, client.deviceName, NormalizeMode(spec.shareMode),
                         spec.shareLabel, now, now + ttl, false, 0)];
      ok := true;
    }

    method GetActiveWebShare(token: string, now: int) returns (found: WebShares.Lookup)
      modifies this`shares
      ensures found == WebShares.Get(old(shares), token, now, clients.Keys)
      ensures found.Refused? && found.error == WebShares.TokenRequired <==> token == ""
      ensures found.Refused? && found.error == WebShares.NotFound <==> token != "" && token !in old(shares)
      ensures found.Refused? && found.error == WebShares.ExpiredOrRevoked <==>
                token != "" && token in old(shares) && (old(shares)[token].revoked || now > old(shares)[token].expiresAt)
      ensures found.Found? ==> token in old(shares) && found.share == old(shares)[token] && found.share.controlledId in clients
      ensures shares == WebShares.AfterGet(old(shares), token, now)
    {
      if token == "" {
        return WebShares.Refused(WebShares.TokenRequired);
      }
      if token !in shares {
        return WebShares.Refused(WebShares.NotFound);
      }
      var share := shares[token];
      if share.revoked || now > share.expiresAt {
        shares := shares - {token};
        return WebShares.Refused(WebShares.ExpiredOrRevoked);
      }
      if share.controlledId !in clients {
        return WebShares.Refused(WebShares.DeviceOffline);
      }
      found := WebShares.Found(share);
    }

    /** Collects the device's links, and drops every dead link met on the way. */
    method ListWebShares(device: string, now: int) returns (found: set<WebShares.WebShare>)
      modifies this`shares
      ensures found == WebShares.Listed(old(shares), device, now)
      ensures shares == WebShares.Purged(old(shares), now)
    {
      ghost var before := shares;
      found := {};
      var keys := shares.Keys;
      while keys != {}
        invariant keys <= before.Keys
        invariant forall k :: k in shares <==> k in before && (k in keys || !WebShares.Dead(before[k], now))
        invariant forall k :: k in shares ==> shares[k] == before[k]
        invariant found == set k | k in before && k !in keys && !WebShares.Dead(before[k], now)
                                   && before[k].controlledId == device :: before[k]
        decreases |keys|
      {
        var k :| k in keys;
        keys := keys - {k};
        var share := shares[k];
        if share.revoked || now > share.expiresAt {
          shares := shares - {k};
        } else if share.controlledId == device {
          found := found + {share};
        }
      }
    }

    /** The walk stops at the first link of the caller that matches. */
    method HandleWebShareRevoke(client: Client, ref: Payload) returns (ok: bool, ghost picked: string)
      modifies this`shares
      ensures var lawful := client.deviceId != "" && ref.ShareRef? && (ref.shareId != "" || ref.shareToken != "");
        && (ok <==> lawful && WebShares.AnyRevocable(old(shares), client.deviceId, ref.shareId, ref.shareToken))
        && (ok ==> picked in old(shares)
                   && WebShares.Revocable(old(shares)[picked], client.deviceId, ref.shareId, ref.shareToken)
                   && old(shares)[picked].controlledId == client.deviceId
                   && ((ref.shareId != "" && old(shares)[picked].id == ref.shareId)
                       || (ref.shareToken != "" && old(shares)[picked].token == ref.shareToken))
                   && shares == old(shares) - {picked}
                   && shares == WebShares.AfterRevoke(old(shares), client.deviceId, ref.shareId, ref.shareToken, picked))
      ensures !ok ==> shares == old(shares)
      ensures !ok && client.deviceId != "" && ref.ShareRef? ==>
                forall k :: k in shares && shares[k].controlledId == client.deviceId ==>
                  !(ref.shareId != "" && shares[k].id == ref.shareId)
                  && !(ref.shareToken != "" && shares[k].token == ref.shareToken)
    {
      picked := "";
      if client.deviceId == "" || !ref.ShareRef? || (ref.shareId == "" && ref.shareToken == "") {
        return false, "";
      }
      var keys := shares.Keys;
      while keys != {}
        invariant shares == old(shares) && keys <= shares.Keys
        invariant forall k :: k in shares && k !in keys ==>
                    !WebShares.Revocable(shares[k], client.deviceId, ref.shareId, ref.shareToken)
        decreases |keys|
      {
        var k :| k in keys;
        keys := keys - {k};
        var share := shares[k];
        if share.controlledId != client.deviceId {
          continue;
        }
        if (ref.shareId != "" && share.id == ref.shareId) || (ref.shareToken != "" && share.token == ref.shareToken) {
          shares := shares - {k};
          return true, k;
        }
      }
      ok := false;
    }

    /** A visitor is admitted if its link is still good, and its request is stored
        before the controlled device is asked. */
    method RequestControlledApproval(peer: WebPeer, now: int) returns (ok: bool)
      requires Valid() && peer.id != ""
      modifies this, clients.Values`queue
      ensures Valid()
      ensures var t := old(Current());
        var purged := t.(shares := WebShares.AfterGet(t.shares, peer.shareToken, now));
        if !WebShares.Get(t.shares, peer.shareToken, now, t.clients.Keys).Found? || peer.controlled !in t.clients then
          !ok && Current() == purged && log == old(log)
        else
          && Current() == AddWebPeer(purged, peer.id, peer).(
               pending := PendingMap.Store(t.pending, peer.id, peer.controlled, peer.mode, now))
          && log == old(log) + [Notice(Device(t.clients[peer.controlled]),
                                       Envelope(SessionRequest, "", peer.id, peer.controlled,
                                                Request(peer.controlled, peer.mode, "", R.VISITOR_NAME, ROLE_CONTROLLER,
                                                        peer.mode == MODE_VIEW_CONTROL)))]
    {
      var found := GetActiveWebShare(peer.shareToken, now);
      if found.Refused? || peer.controlled !in clients {
        return false;
      }
      var target := clients[peer.controlled];
      webPeers := webPeers[peer.id := peer];
      StorePendingRequest(peer.id, peer.controlled, peer.mode, now);
      ok := OfferClient(target, R.VisitorRequest(peer.id, peer.controlled, peer.mode));
    }

    method DropVisitorTracesOf(id: string) returns (ghost order: seq<string>)
      modifies this`sessions, this`pending, this`log, clients.Values`queue, webPeers.Values`queue
      ensures sessions == WithoutSessionsOf(old(sessions), id)
      ensures pending == PendingMap.DropDevice(old(pending), id)
      ensures Enumerates(order, SessionsOf(old(sessions), id)) == true
      ensures log == old(log) + AllCloseNotices(Current(), old(sessions), order, "web peer disconnected")
    {
      order := DropSessionsOf(id, "web peer disconnected");
      ghost var t := Current();
      DropPendingOf(id);
      NoticesDependOnConnections(t, Current(), old(sessions), order, "web peer disconnected");
    }

    lemma VisitorGone(t: ServerTables, peer: WebPeer)
      requires EndpointsOnline(t)
      requires clients == t.clients && shares == t.shares
      requires webPeers == if peer.id in t.webPeers && t.webPeers[peer.id] == peer then t.webPeers - {peer.id} else t.webPeers
      requires sessions == WithoutSessionsOf(t.sessions, peer.id) && pending == PendingMap.DropDevice(t.pending, peer.id)
      ensures Current() == Registry.UnregisterWebPeer(t, peer.id, peer) && EndpointsOnline(Current()) == true
    {
      SectionKeepsEndpoints(t, DoUnregisterWebPeer(peer.id, peer));
    }

    method UnregisterWebPeer(peer: WebPeer) returns (ghost order: seq<string>)
      requires Valid()
      modifies this, clients.Values`queue, webPeers.Values`queue
      ensures Valid()
      ensures Current() == Registry.UnregisterWebPeer(old(Current()), peer.id, peer)
      ensures Enumerates(order, SessionsOf(old(sessions), peer.id)) == true
      ensures log == old(log) + AllCloseNotices(Current(), old(sessions), order, "web peer disconnected")
    {
      ghost var t := Current();
      if peer.id in webPeers && webPeers[peer.id] == peer {
        webPeers := webPeers - {peer.id};
      }
      order := DropVisitorTracesOf(peer.id);
      VisitorGone(t, peer);
    }

    // ------------------------------------------------------------------- the reaper

    method IdleClients(timeout: int, now: int) returns (stale: seq<Client>)
      ensures forall c :: c in stale <==> c in clients.Values && now - c.lastMessageAt > timeout
    {
      stale := [];
      var keys := clients.Keys;
      while keys != {}
        invariant keys <= clients.Keys
        invariant forall c :: c in stale <==> exists id :: id in clients && id !in keys && clients[id] == c
                                                  && now - c.lastMessageAt > timeout
        decreases |keys|
      {
        var k :| k in keys;
        keys := keys - {k};
        if now - clients[k].lastMessageAt > timeout {
          stale := stale + [clients[k]];
        }
      }
    }

    /** Listed connections that have been closed. */
    ghost function ClosedClients(): set<Client>
      reads this, clients.Values
    {
      set c | c in clients.Values && c.closed
    }

    /** Listed connections silent for longer than `timeout`. */
    ghost function IdleOnes(timeout: int, now: int): set<Client>
      reads this, clients.Values
    {
      set c | c in clients.Values && now - c.lastMessageAt > timeout
    }

    /** Of `cs`, exactly `shut` are closed. */
    ghost predicate ClosedAre(cs: set<Client>, shut: set<Client>)
      reads cs
    {
      forall c :: c in cs ==> (c.closed <==> c in shut)
    }

    /** Those that have left are given with their own ids. */
    ghost predicate OwnNames(gone: Leavers)
      reads *
    {
      forall p :: p in gone ==> p.0 == p.1.deviceId
    }

    /** A connection that was listed when the reaper looked. */
    method CloseListed(client: Client, now: int, ghost t: ServerTables, ghost gone: Leavers,
                       ghost orders: seq<seq<string>>, ghost before: seq<ServerNotice>)
      returns (ghost left: Leavers, ghost walks: seq<seq<string>>)
      requires Valid() && HaveLeft(t, Current(), gone, orders, before, log, now) == true
      modifies this, client`closed, clients.Values`queue, webPeers.Values`queue
      ensures Valid() && client.closed && webPeers == old(webPeers)
      ensures forall d :: d in clients ==> d in old(clients) && clients[d] == old(clients)[d]
      ensures left == if old(client.closed) then [] else [(client.deviceId, client)]
      ensures HaveLeft(t, Current(), gone + left, orders + walks, before, log, now) == true
    {
      ghost var u, told := Current(), log;
      ghost var order := Close(client, now);
      if old(client.closed) {
        NothingToWalk(order);
        left, walks := [], [];
        assert gone + left == gone && orders + walks == orders;
      } else {
        OneMoreHasLeft(t, u, Current(), gone, orders, before, told, (client.deviceId, client), order, now);
        left, walks := [(client.deviceId, client)], [order];
      }
    }

    /** The same, seen from the walk over `cs`. */
    method CloseNext(client: Client, now: int, ghost cs: set<Client>, ghost shut: set<Client>,
                     ghost t: ServerTables, ghost gone: Leavers, ghost orders: seq<seq<string>>, ghost before: seq<ServerNotice>)
      returns (ghost left: Leavers, ghost walks: seq<seq<string>>)
      requires Valid() && HaveLeft(t, Current(), gone, orders, before, log, now) == true
      requires client in cs && ClosedAre(cs, shut) == true && OwnNames(gone) == true
      modifies this, client`closed, clients.Values`queue, webPeers.Values`queue
      ensures Valid() && webPeers == old(webPeers)
      ensures forall d :: d in clients ==> d in old(clients) && clients[d] == old(clients)[d]
      ensures ClosedAre(cs, shut + {client}) == true && OwnNames(gone + left) == true
      ensures left == if client in shut then [] else [(client.deviceId, client)]
      ensures HaveLeft(t, Current(), gone + left, orders + walks, before, log, now) == true
    {
      left, walks := CloseListed(client, now, t, gone, orders, before);
    }

    method CloseEach(all: seq<Client>, now: int) returns (ghost gone: Leavers, ghost orders: seq<seq<string>>)
      requires Valid() && forall c :: c in all ==> c in clients.Values
      modifies this, clients.Values`closed, clients.Values`queue, webPeers.Values`queue
      ensures Valid() && forall c :: c in all ==> c.closed
      ensures Members(gone) == FirstOnes(all, |all|) - old(ClosedClients())
      ensures forall p :: p in gone ==> p.0 == p.1.deviceId
      ensures HaveLeft(old(Current()), Current(), gone, orders, old(log), log, now) == true
    {
      ghost var t, wasClosed, listed := Current(), ClosedClients(), clients.Values;
      gone, orders := [], [];
      ghost var shut := wasClosed;
      var i := 0;
      while i < |all|
        invariant 0 <= i <= |all| && Valid()
        invariant clients.Values <= listed && webPeers == old(webPeers)
        invariant Walked(all, i, wasClosed, shut, gone) == true
        invariant ClosedAre(listed, shut) == true && OwnNames(gone) == true
        invariant HaveLeft(t, Current(), gone, orders, old(log), log, now) == true
      {
        var c := all[i];
        ghost var left, walks := CloseNext(c, now, listed, shut, t, gone, orders, old(log));
        WalkedMore(all, i, wasClosed, shut, gone, c.deviceId);
        gone, orders, shut := gone + left, orders + walks, shut + {c};
        i := i + 1;
      }
    }

    /** Idle connections are closed after the lock is dropped; each takes what
        names its id along, and the ends of its sessions are told.  One that was
        closed before, though still listed, stays listed. */
    method CloseIdleClients(timeout: int, now: int) returns (ghost gone: Leavers, ghost orders: seq<seq<string>>)
      requires Valid()
      modifies this, clients.Values`closed, clients.Values`queue, webPeers.Values`queue
      ensures Valid() && forall c :: c in old(IdleOnes(timeout, now)) ==> c.closed
      ensures Members(gone) == old(IdleOnes(timeout, now)) - old(ClosedClients())
      ensures forall c :: c in old(clients).Values ==>
                (c in Members(gone) <==> now - c.lastMessageAt > timeout && !old(c.closed))
      ensures forall p :: p in gone ==> p.0 == p.1.deviceId
      ensures HaveLeft(old(Current()), Current(), gone, orders, old(log), log, now) == true
    {
      var stale := IdleClients(timeout, now);
      assert stale[..|stale|] == stale;
      gone, orders := CloseEach(stale, now);
    }
  }
}
