/** Who holds a device id: admission, hand-over and loss of seats over whole runs,
    and which connections forwarded traffic comes from and goes to. */
module RelaySeats {
  import opened Protocol
  import opened Registry
  import opened RelaySystem
  import opened RelayInvariants
  import opened RelaySteps
  import opened RelayRuns
  import opened RelayMoves
  import opened RelayLifeCycle
  import PendingMap
  import WebShares

  // -------------------------------------------------------------- keeping a seat

  lemma SeatHeld(s: State, s': State, id: string, x: AgentId)
    requires SeatStep(s, s') && Seated(s, id, x) && !Falls(s, s', x)
    requires id in s'.tables.clients ==> !Admits(s, s', s'.tables.clients[id])
    ensures Seated(s', id, x)
  {
  }

  ghost predicate SeatsEach(states: seq<State>) {
    forall i :: 0 <= i < |states| - 1 ==> SeatStep(states[i], states[i + 1])
  }

  lemma StepSeats(s: State, s': State)
    requires Keeps(s, s')
    ensures SeatStep(s, s') == true
  {
  }

  lemma EachStepSeats(cfg: Config, states: seq<State>, events: seq<Event>)
    requires IsRun(cfg, states, events)
    ensures SeatsEach(states)
  {
    forall i | 0 <= i < |states| - 1 ensures SeatStep(states[i], states[i + 1]) == true {
      RunStep(cfg, states, events, i);
      StepSeats(states[i], states[i + 1]);
    }
  }

  /** Nobody is admitted under `id` at step `j`. */
  predicate NobodyAdmitted(states: seq<State>, j: nat, id: string)
    requires j + 1 < |states|
  {
    id in states[j + 1].tables.clients ==> !Admits(states[j], states[j + 1], states[j + 1].tables.clients[id])
  }

  predicate NobodyAdmittedSince(states: seq<State>, i: nat, n: nat, id: string)
    requires n < |states|
  {
    forall j :: i <= j < n ==> NobodyAdmitted(states, j, id)
  }

  /** Between `i` and `n` connection `x` is not torn down. */
  predicate NotFallen(states: seq<State>, i: nat, n: nat, x: AgentId)
    requires n < |states|
  {
    forall j :: i <= j < n ==> !Falls(states[j], states[j + 1], x)
  }

  lemma {:induction false} ChainSeats(states: seq<State>, i: nat, n: nat, id: string, x: AgentId)
    requires SeatsEach(states) && i <= n < |states| && Seated(states[i], id, x)
    requires NobodyAdmittedSince(states, i, n, id) && NotFallen(states, i, n, x)
    ensures Seated(states[n], id, x)
  {
    if i < n {
      ChainSeats(states, i, n - 1, id, x);
      assert NobodyAdmitted(states, n - 1, id);
      SeatHeld(states[n - 1], states[n - 1 + 1], id, x);
    }
  }

  /** A registered connection keeps its id until its own tear-down or the
      admission of another connection under the same id. */
  lemma SeatKept(cfg: Config, states: seq<State>, events: seq<Event>, i: nat, n: nat, id: string, x: AgentId)
    requires IsRun(cfg, states, events) && i <= n < |states| && Seated(states[i], id, x)
    requires NobodyAdmittedSince(states, i, n, id) && NotFallen(states, i, n, x)
    ensures Seated(states[n], id, x)
  {
    EachStepSeats(cfg, states, events);
    ChainSeats(states, i, n, id, x);
  }

  // ------------------------------------------------------ seats of the torn down

  predicate Unlisted(s: State, x: AgentId) {
    forall id :: id in s.tables.clients ==> s.tables.clients[id] != x
  }

  lemma FallUnseats(s: State, s': State, x: AgentId)
    requires ListedOk(s) && FallStep(s, s') && Falls(s, s', x)
    ensures Unlisted(s', x)
  {
    if s.agents[x].id != "" { FallClears(s, s', x); }
  }

  lemma FallInRun(cfg: Config, states: seq<State>, events: seq<Event>, k: nat, x: AgentId)
    requires IsRun(cfg, states, events) && k + 1 < |states| && Falls(states[k], states[k + 1], x)
    ensures Unlisted(states[k + 1], x)
  {
    RunStep(cfg, states, events, k);
    FallUnseats(states[k], states[k + 1], x);
  }

  lemma AdmittedSeat(s: State, s': State, id: string, x: AgentId)
    requires id in s'.tables.clients && Admits(s, s', s'.tables.clients[id]) && Seated(s', id, x)
    ensures Admits(s, s', x)
  {
  }

  lemma SeatBefore(s: State, s': State, id: string, x: AgentId)
    requires SeatStep(s, s') && Seated(s', id, x)
    requires id in s'.tables.clients ==> !Admits(s, s', s'.tables.clients[id])
    ensures Seated(s, id, x)
  {
  }

  /** Step `m` is the last admission under `id` before `n`, and it was x's. */
  predicate LastSeating(states: seq<State>, m: nat, n: nat, id: string, x: AgentId)
    requires n < |states|
  {
    && m < n && Admits(states[m], states[m + 1], x) && Seated(states[m + 1], id, x)
    && NobodyAdmittedSince(states, m + 1, n, id)
  }

  /** The last step from `i` on at which somebody is admitted under `id`, if any. */
  lemma {:induction false} LastAdmitting(states: seq<State>, i: nat, n: nat, id: string) returns (m: nat)
    requires i <= n < |states|
    ensures i <= m <= n && NobodyAdmittedSince(states, m, n, id)
    ensures m == i || !NobodyAdmitted(states, m - 1, id)
  {
    m := n;
    if i < n && NobodyAdmitted(states, n - 1, id) {
      m := LastAdmitting(states, i, n - 1, id);
    }
  }

  lemma {:induction false} ChainBack(states: seq<State>, i: nat, n: nat, id: string, x: AgentId)
    requires SeatsEach(states) == true && i <= n < |states| && NobodyAdmittedSince(states, i, n, id) == true
    requires Seated(states[n], id, x)
    ensures Seated(states[i], id, x)
  {
    if i < n {
      assert NobodyAdmitted(states, n - 1, id);
      SeatBefore(states[n - 1], states[n - 1 + 1], id, x);
      ChainBack(states, i, n - 1, id, x);
    }
  }

  lemma SeatedSince(states: seq<State>, i: nat, n: nat, id: string, x: AgentId) returns (after: nat)
    requires SeatsEach(states) && i <= n < |states| && Seated(states[n], id, x)
    ensures i <= after <= n && Seated(states[after], id, x) == true && NobodyAdmittedSince(states, after, n, id) == true
    ensures after == i || NobodyAdmitted(states, after - 1, id) == false
  {
    after := LastAdmitting(states, i, n, id);
    ChainBack(states, after, n, id, x);
  }

  lemma NotYetSeated(states: seq<State>, i: nat, m: nat, id: string, x: AgentId)
    requires i < |states| && m < |states| && Unlisted(states[i], x) && Seated(states[m], id, x)
    ensures m != i
  {
  }

  lemma IsLastSeating(states: seq<State>, after: nat, n: nat, id: string, x: AgentId)
    requires 0 < after <= n < |states| && !NobodyAdmitted(states, after - 1, id) && Seated(states[after], id, x)
    requires NobodyAdmittedSince(states, after, n, id)
    ensures LastSeating(states, after - 1, n, id, x) == true
  {
    AdmittedSeat(states[after - 1], states[after - 1 + 1], id, x);
  }

  lemma AdmittedAfter(states: seq<State>, i: nat, after: nat, n: nat, id: string, x: AgentId)
    requires i <= after <= n < |states| && Unlisted(states[i], x) == true && Seated(states[after], id, x)
    requires NobodyAdmittedSince(states, after, n, id) == true
    requires after == i || NobodyAdmitted(states, after - 1, id) == false
    ensures i < after && LastSeating(states, after - 1, n, id, x) == true
  {
    NotYetSeated(states, i, after, id, x);
    IsLastSeating(states, after, n, id, x);
  }

  /** The admission that gave `x` the seat it still holds. */
  lemma LastAdmission(states: seq<State>, i: nat, n: nat, id: string, x: AgentId) returns (after: nat)
    requires SeatsEach(states) && i <= n < |states|
    requires Unlisted(states[i], x) && Seated(states[n], id, x)
    ensures i < after && LastSeating(states, after - 1, n, id, x) == true
  {
    after := SeatedSince(states, i, n, id, x);
    AdmittedAfter(states, i, after, n, id, x);
  }

  lemma TornStays(cfg: Config, states: seq<State>, events: seq<Event>, k: nat, n: nat, x: AgentId)
    requires IsRun(cfg, states, events) && k < n < |states| && Falls(states[k], states[k + 1], x)
    ensures x in states[n].agents && states[n].agents[x].phase == Torn
    ensures forall j :: k < j < n ==> !Falls(states[j], states[j + 1], x)
  {
    forall j | k < j <= n ensures x in states[j].agents && states[j].agents[x].phase == Torn {
      RunGrows(cfg, states, events, k + 1, j);
      GrownTorn(states[k], states[k + 1], states[j], x);
    }
  }

  /** `x` was torn down at `k`, was admitted under `id` at the later step `m`, and
      nobody has been admitted under that id since. */
  predicate SeatedLate(states: seq<State>, k: nat, m: nat, n: nat, id: string, x: AgentId)
    requires n < |states|
  {
    k < m && LastSeating(states, m, n, id, x) && Falls(states[k], states[k + 1], x)
  }

  /** A torn-down connection is listed under an id if and only if its register
      handler was admitted after the tear-down, the relay not being full, and
      nobody has been admitted under the id since. */
  lemma TornSeatedIff(cfg: Config, states: seq<State>, events: seq<Event>, n: nat, id: string, x: AgentId)
    requires IsRun(cfg, states, events) && n < |states|
    ensures Seated(states[n], id, x) && x in states[n].agents && states[n].agents[x].phase == Torn
       <==> exists k: nat, m: nat :: SeatedLate(states, k, m, n, id, x)
  {
    EachStepSeats(cfg, states, events);
    if Seated(states[n], id, x) && x in states[n].agents && states[n].agents[x].phase == Torn {
      var k := FellBefore(cfg, states, events, n, x);
      FallInRun(cfg, states, events, k, x);
      var after := LastAdmission(states, k + 1, n, id, x);
      assert SeatedLate(states, k, after - 1, n, id, x);
    }
    if k: nat, m: nat :| SeatedLate(states, k, m, n, id, x) {
      TornStays(cfg, states, events, k, n, x);
      ChainSeats(states, m + 1, n, id, x);
    }
  }

  // -------------------------------------------------------------------- hand-over

  /** Step `e` admits `a`, and `x` loses the id to it. */
  predicate Displaces(s: State, e: Event, a: AgentId, x: AgentId) {
    && e.Proceed? && e.a == a && a in s.agents && s.agents[a].pc.Registering?
    && !Full(s.tables, s.cfg.maxClients) && Displaced(s.tables, s.agents[a].id, a) == Some(x)
  }

  /** In step `e` the handler of `a` leaves the wait for the close of `x`. */
  predicate LeavesWait(s: State, e: Event, a: AgentId, x: AgentId) {
    e.Proceed? && e.a == a && a in s.agents && s.agents[a].pc == ClosingOther(x)
  }

  lemma DisplacingStep(s: State, e: Event, a: AgentId, x: AgentId)
    requires Enabled(s, e) && Displaces(s, e, a, x)
    ensures var s' := RelaySystem.Apply(s, e);
      && s'.tables == Register(s.tables, s.agents[a].id, a) && Seated(s', s.agents[a].id, a)
      && a in s'.agents && s'.agents[a].pc == ClosingOther(x)
  {
    RunsRegister(s, a, e.choice);
  }

  lemma LeavingStep(s: State, e: Event, a: AgentId, x: AgentId)
    requires Enabled(s, e) && LeavesWait(s, e, a, x)
    ensures RelaySystem.Apply(s, e).tables == s.tables
    ensures x in s.agents && s.agents[x].phase == Torn
  {
    RunsLookup(s, a, e.choice);
  }

  lemma ProceedsDoNotFall(s: State, a: AgentId, c: Choice, x: AgentId)
    requires a in s.agents && Runnable(s, a, c)
    ensures !Falls(s, Run(s, a, c), x)
  {
    RunMovesOnly(s, a, c);
  }

  lemma DisplacedSeat(s: State, e: Event, a: AgentId, x: AgentId)
    requires Inv(s) == true && Displaces(s, e, a, x)
    ensures x in s.agents && s.agents[x].id == s.agents[a].id != "" && !s.agents[x].web && x != a
  {
  }

  /** The tear-down of `x` leaves no session, request or link of its id, and every
      other connection keeps its seat. */
  ghost predicate ClearsForNewcomer(s: State, s': State, id: string, x: AgentId) {
    && SessionsOf(s'.tables.sessions, id) == {}
    && (forall p :: p in s'.tables.pending ==> !PendingMap.Names(s'.tables.pending[p], id))
    && LinksDead(s'.tables, id)
    && (forall d :: d in s.tables.clients && s.tables.clients[d] != x ==>
          d in s'.tables.clients && s'.tables.clients[d] == s.tables.clients[d])
  }

  lemma FallClearsFor(s: State, s': State, id: string, x: AgentId)
    requires ListedOk(s) && FallStep(s, s') && Falls(s, s', x) && s.agents[x].id == id != "" && !s.agents[x].web
    ensures ClearsForNewcomer(s, s', id, x) == true
  {
    FallClears(s, s', x);
  }

  lemma FallHandsOver(cfg: Config, states: seq<State>, events: seq<Event>, m: nat, k: nat, a: AgentId, x: AgentId)
    requires IsRun(cfg, states, events) && m < |events| && Displaces(states[m], events[m], a, x)
    requires m <= k && k + 1 < |states| && Falls(states[k], states[k + 1], x)
    ensures ClearsForNewcomer(states[k], states[k + 1], states[m].agents[a].id, x) == true
  {
    RunsKeepInvariant(cfg, states, events, m);
    DisplacedSeat(states[m], events[m], a, x);
    RunGrows(cfg, states, events, m, k);
    KeepsName(states[m], states[k], x);
    RunStep(cfg, states, events, k);
    FallClearsFor(states[k], states[k + 1], states[m].agents[a].id, x);
  }

  lemma KeepsName(s: State, t: State, x: AgentId)
    requires Grows(s, t) && x in s.agents && s.agents[x].id != ""
    ensures x in t.agents && t.agents[x].id == s.agents[x].id && t.agents[x].web == s.agents[x].web
    ensures s.agents[x].phase == Torn ==> t.agents[x].phase == Torn
  {
  }

  /** Hand-over, exactly.  Connection `a` is admitted at step `m`, displacing `x`,
      and its register handler goes on at step `n`.  x's tear-down lies in between
      if and only if x was not torn down before the admission; then it leaves
      nothing of the id but the seat, and the seat to the newcomer.  Otherwise no
      tear-down clears anything, and neither do the two steps of the handler. */
  lemma HandOverIff(cfg: Config, states: seq<State>, events: seq<Event>, m: nat, n: nat, a: AgentId, x: AgentId)
    requires IsRun(cfg, states, events) && m < n < |events|
    requires Displaces(states[m], events[m], a, x) && LeavesWait(states[n], events[n], a, x)
    ensures x in states[m].agents
    ensures var id := states[m].agents[a].id;
      && (states[m].agents[x].phase != Torn <==>
            exists k: nat :: m < k < n && Falls(states[k], states[k + 1], x))
      && (forall k :: m < k < n && Falls(states[k], states[k + 1], x) ==>
            ClearsForNewcomer(states[k], states[k + 1], id, x))
      && states[m + 1].tables == Register(states[m].tables, id, a) && Seated(states[m + 1], id, a)
      && states[n + 1].tables == states[n].tables
  {
    DisplacingStep(states[m], events[m], a, x);
    LeavingStep(states[n], events[n], a, x);
    RunsKeepInvariant(cfg, states, events, m);
    DisplacedSeat(states[m], events[m], a, x);
    if states[m].agents[x].phase != Torn {
      var k := FellAfter(cfg, states, events, m, n, a, x);
    }
    forall k | m < k < n && Falls(states[k], states[k + 1], x)
      ensures ClearsForNewcomer(states[k], states[k + 1], states[m].agents[a].id, x) == true
      ensures states[m].agents[x].phase != Torn
    {
      FallHandsOver(cfg, states, events, m, k, a, x);
      RunGrows(cfg, states, events, m, k);
      KeepsName(states[m], states[k], x);
    }
  }

  lemma FellAfter(cfg: Config, states: seq<State>, events: seq<Event>, m: nat, n: nat, a: AgentId, x: AgentId) returns (k: nat)
    requires IsRun(cfg, states, events) && m < n < |events| && events[m].Proceed?
    requires x in states[m].agents && states[m].agents[x].phase != Torn
    requires x in states[n].agents && states[n].agents[x].phase == Torn
    ensures m < k < n && Falls(states[k], states[k + 1], x)
  {
    k := FellBefore(cfg, states, events, n, x);
    if k < m { TornStays(cfg, states, events, k, m, x); }
    ProceedsDoNotFall(states[m], events[m].a, events[m].choice, x);
  }

  // ------------------------------------------------- who traffic comes from and goes to

  /** Whoever is in the record of seats was listed at some time. */
  lemma {:induction false} ListedEarlier(states: seq<State>, n: nat, id: string, x: AgentId) returns (k: nat)
    requires SeatsEach(states) && n < |states| && states[0].seated == {} && (id, x) in states[n].seated
    ensures k <= n && Listed(states[k], id, x)
  {
    k := n;
    if !Listed(states[n], id, x) {
      assert SeatStep(states[n - 1], states[n - 1 + 1]);
      k := ListedEarlier(states, n - 1, id, x);
    }
  }

  lemma ListedInRun(cfg: Config, states: seq<State>, events: seq<Event>, n: nat, id: string, x: AgentId) returns (k: nat)
    requires IsRun(cfg, states, events) && n < |states| && (id, x) in states[n].seated
    ensures k <= n && Listed(states[k], id, x)
  {
    EachStepSeats(cfg, states, events);
    k := ListedEarlier(states, n, id, x);
  }

  lemma ListedDevice(cfg: Config, states: seq<State>, events: seq<Event>, k: nat, n: nat, id: string, x: AgentId)
    requires IsRun(cfg, states, events) && k <= n < |states| && Listed(states[k], id, x)
    ensures x in states[n].agents
    ensures if states[n].agents[x].web then id in states[k].tables.webPeers && states[k].tables.webPeers[id] == x
            else Seated(states[k], id, x)
  {
    RunsKeepInvariant(cfg, states, events, k);
    RunGrows(cfg, states, events, k, n);
    ListedKind(states[k], states[n], id, x);
  }

  lemma ListedKind(s: State, t: State, id: string, x: AgentId)
    requires ListedOk(s) && Grows(s, t) && Listed(s, id, x)
    ensures x in t.agents
    ensures if t.agents[x].web then id in s.tables.webPeers && s.tables.webPeers[id] == x else Seated(s, id, x)
  {
  }

  /** By step `n` the relay had listed `x` under `id` at some time. */
  predicate WasListed(states: seq<State>, n: nat, id: string, x: AgentId)
    requires n < |states|
  {
    exists k: nat :: k <= n && Listed(states[k], id, x)
  }

  // --------------------------------------------------------- the sender's own seat

  /** In step `e` the relay decides on the registration of `x`. */
  predicate Decides(s: State, e: Event, x: AgentId) {
    e.Proceed? && e.a == x && x in s.agents && s.agents[x].pc.Registering?
  }

  /** A device that has a name and is not waiting for the decision. */
  predicate Settled(s: State, x: AgentId) {
    x in s.agents && !s.agents[x].web && s.agents[x].id != "" && !s.agents[x].pc.Registering?
  }

  /** A device settles by a decision, which seats it unless the relay is full, and
      nothing else ever seats it. */
  ghost predicate Settles(s: State, e: Event, s': State, x: AgentId)
    requires x in s'.agents
  {
    || (Settled(s, x) && s.agents[x].id == s'.agents[x].id
        && ((s.agents[x].id, x) in s.seated <==> (s'.agents[x].id, x) in s'.seated))
    || (Decides(s, e, x)
        && (Full(s.tables, s.cfg.maxClients) <==> (s'.agents[x].id, x) !in s'.seated))
  }

  ghost predicate SettleStep(s: State, e: Event, s': State) {
    forall x :: Settled(s', x) ==> Settles(s, e, s', x)
  }

  lemma DecidedSeat(s: State, e: Event, x: AgentId)
    requires Enabled(s, e) && Decides(s, e, x) && PcOk(s, x, Registering) == true
    ensures var s' := RelaySystem.Apply(s, e);
      x in s'.agents && s'.agents[x].id == s.agents[x].id
      && (Full(s.tables, s.cfg.maxClients) <==> (s'.agents[x].id, x) !in s'.seated)
  {
    RunsRegister(s, x, e.choice);
  }

  /** In a step that is no decision on `x`, a settled `x` was settled before. */
  lemma SettledBefore(s: State, e: Event, x: AgentId)
    requires Enabled(s, e) && !Decides(s, e, x) && Settled(RelaySystem.Apply(s, e), x)
    ensures Settled(s, x) && s.agents[x].id == RelaySystem.Apply(s, e).agents[x].id
  {
    if e.Proceed? { RunMovesOnly(s, e.a, e.choice); }
  }

  /** Seats are given to newcomers only, so those of the settled do not change. */
  lemma SettledSeat(s: State, s': State, x: AgentId)
    requires Grows(s, s') && SeatStep(s, s') && ListedOk(s') && Settled(s, x)
    requires x in s'.agents && s'.agents[x].id == s.agents[x].id
    requires ListedOk(s)
    ensures (s.agents[x].id, x) in s.seated <==> (s'.agents[x].id, x) in s'.seated
  {
  }

  lemma OneSettles(s: State, e: Event, x: AgentId)
    requires Inv(s) == true && Enabled(s, e) && Settled(RelaySystem.Apply(s, e), x)
    ensures Settles(s, e, RelaySystem.Apply(s, e), x) == true
  {
    if Decides(s, e, x) {
      JustifiedPc(s, x);
      DecidedSeat(s, e, x);
    } else {
      StepKeeps(s, e);
      SettledBefore(s, e, x);
      SettledSeat(s, RelaySystem.Apply(s, e), x);
    }
  }

  lemma StepSettles(s: State, e: Event)
    requires Inv(s) == true && Enabled(s, e)
    ensures SettleStep(s, e, RelaySystem.Apply(s, e)) == true
  {
    forall x | Settled(RelaySystem.Apply(s, e), x) ensures Settles(s, e, RelaySystem.Apply(s, e), x) == true {
      OneSettles(s, e, x);
    }
  }

  ghost predicate SettlesEach(states: seq<State>, events: seq<Event>) {
    && |states| == |events| + 1 && states[0].agents == map[]
    && forall i :: 0 <= i < |events| ==> SettleStep(states[i], events[i], states[i + 1])
  }

  lemma EachStepSettles(cfg: Config, states: seq<State>, events: seq<Event>)
    requires IsRun(cfg, states, events)
    ensures SettlesEach(states, events)
  {
    forall i | 0 <= i < |events| ensures SettleStep(states[i], events[i], states[i + 1]) == true {
      RunStep(cfg, states, events, i);
      StepSettles(states[i], events[i]);
    }
  }

  lemma {:induction false} DecidedEarlier(states: seq<State>, events: seq<Event>, n: nat, x: AgentId) returns (k: nat)
    requires SettlesEach(states, events) && n < |states| && Settled(states[n], x)
    ensures k < n && Decides(states[k], events[k], x)
    ensures Full(states[k].tables, states[k].cfg.maxClients) <==> (states[n].agents[x].id, x) !in states[n].seated
  {
    k := n - 1;
    assert n > 0;
    assert Settles(states[k], events[k], states[k + 1], x);
    if !(Decides(states[k], events[k], x)
         && (Full(states[k].tables, states[k].cfg.maxClients) <==> (states[n].agents[x].id, x) !in states[n].seated)) {
      k := DecidedEarlier(states, events, n - 1, x);
    }
  }

  /** A connection whose traffic the relay forwarded is settled, or a visitor that
      was listed when the session was made. */
  lemma SenderSettled(s: State, i: nat)
    requires LogOk(s) && PcsOk(s) && i < |s.mail.log| && IsSessionTraffic(s.mail.log[i].envelope.kind)
    requires s.mail.log[i].source in s.agents && !s.agents[s.mail.log[i].source].web
    ensures Settled(s, s.mail.log[i].source) && s.agents[s.mail.log[i].source].id == s.mail.log[i].envelope.from
  {
    assert SentOk(s, s.mail.log[i]);
    assert PcOk(s, s.mail.log[i].source, s.agents[s.mail.log[i].source].pc);
  }

  lemma VisitorSeat(s: State, i: nat)
    requires LogOk(s) && CreatedOk(s) && IdsApart(s)
    requires i < |s.mail.log| && ControllerOnly(s.mail.log[i].envelope.kind)
    requires s.mail.log[i].source in s.agents && s.agents[s.mail.log[i].source].web
    ensures (s.mail.log[i].envelope.from, s.mail.log[i].source) in s.seated
  {
    var m := s.mail.log[i];
    assert SentOk(s, m);
    assert CreationOk(s, m.envelope.sessionId);
    var peer := s.created[m.envelope.sessionId].peer;
    assert s.agents[peer].id == s.agents[m.source].id;
  }

  /** Who sent what the relay forwards to a controlled device as input or stream
      control.  A visitor always had been listed under its id.  A device had been,
      at some time, if and only if the relay was not full when it decided on its
      registration, which it did once: a connection that was refused carries the
      id all the same and passes every check. */
  lemma SenderSeatIff(cfg: Config, states: seq<State>, events: seq<Event>, n: nat, i: nat) returns (k: nat)
    requires IsRun(cfg, states, events) && n < |states|
    requires i < |states[n].mail.log| && ControllerOnly(states[n].mail.log[i].envelope.kind)
    ensures var m := states[n].mail.log[i];
      && m.source in states[n].agents
      && (states[n].agents[m.source].web ==> WasListed(states, n, m.envelope.from, m.source))
      && (!states[n].agents[m.source].web ==>
            && k < n && Decides(states[k], events[k], m.source)
            && (WasListed(states, n, m.envelope.from, m.source) <==> !Full(states[k].tables, cfg.maxClients)))
  {
    RunsKeepInvariant(cfg, states, events, n);
    var m := states[n].mail.log[i];
    k := 0;
    SenderKnown(states[n], i);
    if states[n].agents[m.source].web {
      VisitorSeat(states[n], i);
      var j := ListedInRun(cfg, states, events, n, m.envelope.from, m.source);
    } else {
      SenderSettled(states[n], i);
      EachStepSettles(cfg, states, events);
      k := DecidedEarlier(states, events, n, m.source);
      SameConfig(cfg, states, events, k);
      if (m.envelope.from, m.source) in states[n].seated {
        var j := ListedInRun(cfg, states, events, n, m.envelope.from, m.source);
      } else {
        forall j: nat | j <= n ensures !Listed(states[j], m.envelope.from, m.source) {
          NeverListed(cfg, states, events, j, n, m.envelope.from, m.source);
        }
      }
    }
  }

  lemma SenderKnown(s: State, i: nat)
    requires LogOk(s) && i < |s.mail.log|
    ensures s.mail.log[i].source in s.agents
  {
    assert SentOk(s, s.mail.log[i]);
  }

  lemma SameConfig(cfg: Config, states: seq<State>, events: seq<Event>, k: nat)
    requires IsRun(cfg, states, events) && k < |states|
    ensures states[k].cfg == cfg
  {
    RunGrows(cfg, states, events, 0, k);
  }

  lemma NeverListed(cfg: Config, states: seq<State>, events: seq<Event>, j: nat, n: nat, id: string, x: AgentId)
    requires IsRun(cfg, states, events) && j <= n < |states| && (id, x) !in states[n].seated
    ensures !Listed(states[j], id, x)
  {
    RunsKeepInvariant(cfg, states, events, j);
    RunGrows(cfg, states, events, j, n);
  }
}
