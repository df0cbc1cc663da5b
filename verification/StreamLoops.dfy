/** Who owns the cancel handle of a stream loop.  Any number of goroutines start
    and stop stream loops at the same time; only the swap of the registered
    handle is done under a lock, everything around it interleaves. */
module StreamLoops {
  import opened Protocol

  type Context = nat
  type Thread = nat

  /** Where a goroutine stands inside start or stop. */
  datatype Pc =
    | Outside
    | Made(own: Context)                                    // created, not yet published
    | Published(own: Context, displaced: Option<Context>)   // next: cancel the displaced one
    | AwaitingOld(own: Context)                             // waits for it, or for a timeout
    | Took(held: Option<Context>)                           // stop: next cancel what it took
    | AwaitingEnd                                           // stop: waits for it, or for a timeout

  datatype State = State(
    created: set<Context>,
    cancelled: set<Context>,
    registered: Option<Context>,
    running: set<Context>,      // stream goroutines launched and not yet returned
    launched: set<Context>,     // history
    threads: map<Thread, Pc>)

  const INITIAL := State({}, {}, None, {}, {}, map[])

  datatype Event =
    | BeginStart(t: Thread, own: Context)
    | Publish(t: Thread)
    | CancelOld(t: Thread)
    | Launch(t: Thread)        // the old loop ended, or two seconds passed
    | GiveUp(t: Thread)        // the client itself is closing
    | BeginStop(t: Thread)
    | CancelTaken(t: Thread)
    | EndStop(t: Thread)
    | LoopReturns(own: Context)

  function PcOf(s: State, t: Thread): Pc {
    if t in s.threads then s.threads[t] else Outside
  }

  predicate Enabled(s: State, e: Event) {
    match e
    case BeginStart(t, own) => PcOf(s, t).Outside? && own !in s.created
    case Publish(t) => PcOf(s, t).Made?
    case CancelOld(t) => PcOf(s, t).Published?
    case Launch(t) => PcOf(s, t).AwaitingOld?
    case GiveUp(t) => PcOf(s, t).AwaitingOld?
    case BeginStop(t) => PcOf(s, t).Outside?
    case CancelTaken(t) => PcOf(s, t).Took?
    case EndStop(t) => PcOf(s, t).AwaitingEnd?
    case LoopReturns(own) => own in s.running
  }

  function Goto(s: State, t: Thread, pc: Pc): State {
    s.(threads := s.threads[t := pc])
  }

  function Handle(c: Option<Context>): set<Context> {
    if c.Some? then {c.value} else {}
  }

  function Apply(s: State, e: Event): State
    requires Enabled(s, e)
  {
    match e
    case BeginStart(t, own) => Goto(s.(created := s.created + {own}), t, Made(own))
    case Publish(t) =>
      var own := PcOf(s, t).own;
      Goto(s.(registered := Some(own)), t, Published(own, s.registered))
    case CancelOld(t) =>
      var pc := PcOf(s, t);
      Goto(s.(cancelled := s.cancelled + Handle(pc.displaced)), t, AwaitingOld(pc.own))
    case Launch(t) =>
      var own := PcOf(s, t).own;
      Goto(s.(running := s.running + {own}, launched := s.launched + {own}), t, Outside)
    case GiveUp(t) => Goto(s.(cancelled := s.cancelled + {PcOf(s, t).own}), t, Outside)
    case BeginStop(t) => Goto(s.(registered := None), t, Took(s.registered))
    case CancelTaken(t) => Goto(s.(cancelled := s.cancelled + Handle(PcOf(s, t).held)), t, AwaitingEnd)
    case EndStop(t) => Goto(s, t, Outside)
    case LoopReturns(own) => s.(running := s.running - {own})
  }

  ghost predicate IsRun(states: seq<State>, events: seq<Event>) {
    && |states| == |events| + 1
    && states[0] == INITIAL
    && forall i :: 0 <= i < |events| ==> Enabled(states[i], events[i]) && states[i + 1] == Apply(states[i], events[i])
  }

  // ------------------------------------------------------------------- ownership

  /** `t` holds `c` unpublished. */
  predicate Keeps(pc: Pc, c: Context) {
    pc.Made? && pc.own == c
  }

  /** The very next action of the goroutine cancels `c`. */
  predicate AboutToCancel(pc: Pc, c: Context) {
    (pc.Published? && pc.displaced == Some(c)) || (pc.Took? && pc.held == Some(c))
  }

  predicate Holds(pc: Pc, c: Context) {
    Keeps(pc, c) || AboutToCancel(pc, c)
  }

  /** Contexts a goroutine may still launch a loop for. */
  predicate MayLaunch(pc: Pc, c: Context) {
    (pc.Made? || pc.Published? || pc.AwaitingOld?) && pc.own == c
  }

  ghost predicate SomeHolder(s: State, c: Context) {
    exists t :: Holds(PcOf(s, t), c)
  }

  /** Every context ever created is unpublished in its creator's hands, or the
      registered one, or held by a goroutine whose next action cancels it, or
      cancelled; the first three exclude each other and name one holder. */
  ghost predicate Owned(s: State, c: Context) {
    && (c in s.cancelled || s.registered == Some(c) || SomeHolder(s, c))
    && (forall t :: Holds(PcOf(s, t), c) ==> s.registered != Some(c))
    && (forall t, u :: Holds(PcOf(s, t), c) && Holds(PcOf(s, u), c) ==> t == u)
  }

  /** Each context has one creator, which launches at most one loop for it. */
  ghost predicate LaunchedOnce(s: State, c: Context) {
    && (forall t :: MayLaunch(PcOf(s, t), c) ==> c !in s.launched)
    && (forall t, u :: MayLaunch(PcOf(s, t), c) && MayLaunch(PcOf(s, u), c) ==> t == u)
  }

  ghost predicate Inv(s: State) {
    && (forall c :: c in s.created ==> Owned(s, c) && LaunchedOnce(s, c))
    && Ranged(s)
  }

  lemma OthersStay(s: State, e: Event, u: Thread)
    requires Enabled(s, e) && (e.LoopReturns? || u != e.t)
    ensures PcOf(Apply(s, e), u) == PcOf(s, u)
  {
  }

  /** A holder after a step held `c` before, or has just taken its place. */
  lemma HolderBefore(s: State, e: Event, c: Context, t: Thread)
    requires Enabled(s, e) && c in s.created && Holds(PcOf(Apply(s, e), t), c)
    ensures || (Holds(PcOf(s, t), c) && PcOf(Apply(s, e), t) == PcOf(s, t))
            || (!e.LoopReturns? && e.t == t && s.registered == Some(c) && (e.Publish? || e.BeginStop?))
  {
    if e.LoopReturns? || t != e.t { OthersStay(s, e, t); }
  }

  /** A registered context was registered before, or its creator publishes it. */
  lemma RegisteredBefore(s: State, e: Event, c: Context)
    requires Enabled(s, e) && Apply(s, e).registered == Some(c)
    ensures s.registered == Some(c) || (e.Publish? && Holds(PcOf(s, e.t), c))
  {
  }

  lemma StaysOwned(s: State, e: Event, c: Context)
    requires Enabled(s, e) && c in s.created && Owned(s, c)
    ensures var s' := Apply(s, e); c in s'.cancelled || s'.registered == Some(c) || SomeHolder(s', c)
  {
    var s' := Apply(s, e);
    if c !in s'.cancelled && s'.registered != Some(c) {
      if s.registered == Some(c) {
        assert Holds(PcOf(s', e.t), c);
      } else {
        var t :| Holds(PcOf(s, t), c);
        if e.LoopReturns? || t != e.t { OthersStay(s, e, t); }
        assert Holds(PcOf(s', t), c);
      }
    }
  }

  lemma RegisteredIsUnheld(s: State, e: Event, c: Context, t: Thread)
    requires Enabled(s, e) && c in s.created && Owned(s, c)
    requires Holds(PcOf(Apply(s, e), t), c)
    ensures Apply(s, e).registered != Some(c)
  {
    HolderBefore(s, e, c, t);
    if Apply(s, e).registered == Some(c) { RegisteredBefore(s, e, c); }
  }

  lemma OneHolder(s: State, e: Event, c: Context, t: Thread, u: Thread)
    requires Enabled(s, e) && c in s.created && Owned(s, c)
    requires Holds(PcOf(Apply(s, e), t), c) && Holds(PcOf(Apply(s, e), u), c)
    ensures t == u
  {
    HolderBefore(s, e, c, t);
    HolderBefore(s, e, c, u);
  }

  lemma OwnedStep(s: State, e: Event, c: Context)
    requires Enabled(s, e) && c in s.created && Owned(s, c)
    ensures Owned(Apply(s, e), c)
  {
    var s' := Apply(s, e);
    StaysOwned(s, e, c);
    forall t | Holds(PcOf(s', t), c) ensures s'.registered != Some(c) { RegisteredIsUnheld(s, e, c, t); }
    forall t, u | Holds(PcOf(s', t), c) && Holds(PcOf(s', u), c) ensures t == u { OneHolder(s, e, c, t, u); }
  }

  lemma LaunchStep(s: State, e: Event, c: Context)
    requires Inv(s) && Enabled(s, e) && c in s.created
    ensures LaunchedOnce(Apply(s, e), c)
  {
    var s' := Apply(s, e);
    assert LaunchedOnce(s, c);
    forall t | MayLaunch(PcOf(s', t), c) ensures MayLaunch(PcOf(s, t), c) { }
  }

  lemma NewStep(s: State, t: Thread, own: Context)
    requires Inv(s) && Enabled(s, BeginStart(t, own))
    ensures var s' := Apply(s, BeginStart(t, own)); Owned(s', own) && LaunchedOnce(s', own)
  {
    var s' := Apply(s, BeginStart(t, own));
    assert Holds(PcOf(s', t), own);
    forall u | u != t ensures !Holds(PcOf(s', u), own) && !MayLaunch(PcOf(s', u), own) {
      assert PcOf(s', u) == PcOf(s, u);
    }
  }

  ghost predicate Ranged(s: State) {
    && (forall t, c :: Holds(PcOf(s, t), c) || MayLaunch(PcOf(s, t), c) ==> c in s.created)
    && (s.registered.Some? ==> s.registered.value in s.created)
    && s.cancelled <= s.created && s.running <= s.launched <= s.created
  }

  lemma RangeStep(s: State, e: Event)
    requires Ranged(s) && Enabled(s, e)
    ensures Ranged(Apply(s, e))
  {
    var s' := Apply(s, e);
    if !e.LoopReturns? {
      var pc := PcOf(s, e.t);
      if pc.Made? || pc.Published? || pc.AwaitingOld? { assert MayLaunch(pc, pc.own); }
      if pc.Published? && pc.displaced.Some? { assert Holds(pc, pc.displaced.value); }
      if pc.Took? && pc.held.Some? { assert Holds(pc, pc.held.value); }
    }
    forall t, c | Holds(PcOf(s', t), c) || MayLaunch(PcOf(s', t), c) ensures c in s'.created {
      if e.LoopReturns? || t != e.t { OthersStay(s, e, t); }
    }
  }

  lemma StepKeeps(s: State, e: Event)
    requires Inv(s) && Enabled(s, e)
    ensures Inv(Apply(s, e))
  {
    var s' := Apply(s, e);
    RangeStep(s, e);
    if e.BeginStart? { NewStep(s, e.t, e.own); }
    forall c | c in s.created ensures Owned(s', c) && LaunchedOnce(s', c) {
      OwnedStep(s, e, c);
      LaunchStep(s, e, c);
    }
  }

  lemma {:induction false} RunsKeepOwnership(states: seq<State>, events: seq<Event>, n: nat)
    requires IsRun(states, events) && n < |states|
    ensures Inv(states[n])
  {
    if n > 0 {
      RunsKeepOwnership(states, events, n - 1);
      StepKeeps(states[n - 1], events[n - 1]);
    }
  }

  // -------------------------------------------------------------------- theorems

  /** In every run, each context ever created has exactly one of four fates that
      matter: cancelled, registered, or held by exactly one goroutine, which is
      its creator before publishing it or else cancels it next. */
  lemma EveryContextIsOwned(states: seq<State>, events: seq<Event>, n: nat, c: Context)
    requires IsRun(states, events) && n < |states| && c in states[n].created && c !in states[n].cancelled
    ensures var s := states[n];
      && (s.registered == Some(c) || exists t :: Holds(PcOf(s, t), c))
      && (forall t, u :: Holds(PcOf(s, t), c) && Holds(PcOf(s, u), c) ==> t == u)
      && (s.registered == Some(c) ==> forall t :: !Holds(PcOf(s, t), c))
  {
    RunsKeepOwnership(states, events, n);
    assert Owned(states[n], c);
  }

  /** No start or stop is under way. */
  ghost predicate Quiet(s: State) {
    forall t :: PcOf(s, t).Outside?
  }

  /** `c` is the registered handle or one that a goroutine has in hand. */
  ghost predicate InHand(s: State, c: Context) {
    s.registered == Some(c) || SomeHolder(s, c)
  }

  predicate Uncancelled(s: State, c: Context) {
    c in s.created && c !in s.cancelled
  }

  /** At most one context is not cancelled: at most one stream loop goes on. */
  ghost predicate AtMostOne(s: State) {
    forall c, d :: Uncancelled(s, c) && Uncancelled(s, d) ==> c == d
  }

  /** There is at most one uncancelled context if and only if, of the registered
      handle and those that goroutines have in hand, at most one is not
      cancelled.  No other context can be left over. */
  lemma AtMostOneLoopIff(states: seq<State>, events: seq<Event>, n: nat)
    requires IsRun(states, events) && n < |states|
    ensures var s := states[n];
      AtMostOne(s) <==>
        forall c, d :: InHand(s, c) && c !in s.cancelled && InHand(s, d) && d !in s.cancelled ==> c == d
  {
    var s := states[n];
    RunsKeepOwnership(states, events, n);
    forall c ensures InHand(s, c) && c !in s.cancelled <==> Uncancelled(s, c) {
      if Uncancelled(s, c) { assert Owned(s, c); }
      if InHand(s, c) { HandsAreCreated(s, c); }
    }
  }

  lemma HandsAreCreated(s: State, c: Context)
    requires Ranged(s) && InHand(s, c)
    ensures c in s.created
  {
    if s.registered != Some(c) {
      var t :| Holds(PcOf(s, t), c);
    }
  }

  /** Whenever no start or stop is under way, at most one context is not
      cancelled, and it is the registered one: at most one stream loop goes on. */
  lemma AtMostOneLoop(states: seq<State>, events: seq<Event>, n: nat, c: Context)
    requires IsRun(states, events) && n < |states| && Quiet(states[n])
    requires c in states[n].created && c !in states[n].cancelled
    ensures states[n].registered == Some(c)
  {
    EveryContextIsOwned(states, events, n, c);
  }

  /** The creator of `c` may still launch its loop. */
  ghost predicate Awaited(s: State, c: Context) {
    exists t :: MayLaunch(PcOf(s, t), c)
  }

  ghost predicate NoneLost(s: State) {
    forall c :: c in s.created && c !in s.launched && c !in s.cancelled ==> Awaited(s, c)
  }

  lemma NoneLostStep(s: State, e: Event)
    requires NoneLost(s) && Enabled(s, e)
    ensures NoneLost(Apply(s, e))
  {
    var s' := Apply(s, e);
    forall c | c in s'.created && c !in s'.launched && c !in s'.cancelled ensures Awaited(s', c) {
      if e.BeginStart? && e.own == c {
        assert MayLaunch(PcOf(s', e.t), c);
      } else {
        var t :| MayLaunch(PcOf(s, t), c);
        if e.LoopReturns? || t != e.t { OthersStay(s, e, t); }
        assert MayLaunch(PcOf(s', t), c);
      }
    }
  }

  lemma {:induction false} RunsLoseNone(states: seq<State>, events: seq<Event>, n: nat)
    requires IsRun(states, events) && n < |states|
    ensures NoneLost(states[n])
  {
    if n > 0 {
      RunsLoseNone(states, events, n - 1);
      NoneLostStep(states[n - 1], events[n - 1]);
    }
  }

  /** A start that does not come to launch its loop has cancelled the context: what
      is neither launched nor cancelled has a goroutine that will do one of them. */
  lemma LaunchedOrCancelled(states: seq<State>, events: seq<Event>, n: nat, c: Context)
    requires IsRun(states, events) && n < |states| && c in states[n].created
    ensures c in states[n].launched || c in states[n].cancelled || exists t :: MayLaunch(PcOf(states[n], t), c)
    ensures Quiet(states[n]) ==> c in states[n].launched || c in states[n].cancelled
  {
    RunsLoseNone(states, events, n);
  }

  /** Who cancels `c`: the one whose publish displaced it, the one that took it to stop
      it, or the one that made it and gives up. */
  predicate Cancels(s: State, e: Event, c: Context) {
    match e
    case CancelOld(t) => PcOf(s, t).Published? && PcOf(s, t).displaced == Some(c)
    case CancelTaken(t) => PcOf(s, t).Took? && PcOf(s, t).held == Some(c)
    case GiveUp(t) => PcOf(s, t).AwaitingOld? && PcOf(s, t).own == c
    case _ => false
  }

  ghost predicate CancelledBefore(states: seq<State>, events: seq<Event>, n: nat, c: Context)
    requires n <= |events| <= |states|
  {
    exists i: nat :: i < n && Cancels(states[i], events[i], c)
  }

  lemma CancelledOn(states: seq<State>, events: seq<Event>, n: nat, c: Context)
    requires n < |events| <= |states|
    ensures CancelledBefore(states, events, n + 1, c) <==> CancelledBefore(states, events, n, c) || Cancels(states[n], events[n], c)
  {
  }

  /** A context is cancelled if and only if one of these has cancelled it: in
      particular no loop that returns, and no publish, cancels anything. */
  lemma {:induction false} CancelledIff(states: seq<State>, events: seq<Event>, n: nat, c: Context)
    requires IsRun(states, events) && n < |states|
    ensures c in states[n].cancelled <==> CancelledBefore(states, events, n, c)
  {
    if n > 0 {
      var k := n - 1;
      CancelledIff(states, events, k, c);
      CancelledOn(states, events, k, c);
      assert states[k + 1] == Apply(states[k], events[k]);
    }
  }

  /** The loop of `c` was launched at `i` and has not returned before `n`. */
  predicate RunsSince(states: seq<State>, events: seq<Event>, i: nat, n: nat, c: Context)
    requires n <= |events| <= |states|
  {
    && i < n && events[i].Launch? && PcOf(states[i], events[i].t) == AwaitingOld(c)
    && forall k :: i < k < n ==> events[k] != LoopReturns(c)
  }

  lemma RunsOn(states: seq<State>, events: seq<Event>, i: nat, n: nat, c: Context)
    requires n < |events| <= |states|
    ensures RunsSince(states, events, i, n + 1, c) <==>
            || (i == n && events[n].Launch? && PcOf(states[n], events[n].t) == AwaitingOld(c))
            || (RunsSince(states, events, i, n, c) && events[n] != LoopReturns(c))
  {
  }

  /** A loop runs from its launch until it returns, whatever is cancelled. */
  lemma {:induction false} RunningIff(states: seq<State>, events: seq<Event>, n: nat, c: Context)
    requires IsRun(states, events) && n < |states|
    ensures c in states[n].running <==> exists i: nat :: RunsSince(states, events, i, n, c)
  {
    if n > 0 {
      var last := n - 1;
      RunningIff(states, events, last, c);
      assert states[last + 1] == Apply(states[last], events[last]);
      forall i: nat
        ensures RunsSince(states, events, i, n, c) <==>
                || (i == last && events[last].Launch? && PcOf(states[last], events[last].t) == AwaitingOld(c))
                || (RunsSince(states, events, i, last, c) && events[last] != LoopReturns(c))
      {
        RunsOn(states, events, i, last, c);
      }
      if events[last].Launch? && PcOf(states[last], events[last].t) == AwaitingOld(c) {
        assert RunsSince(states, events, last, n, c);
      } else if i: nat :| RunsSince(states, events, i, last, c) {
        assert RunsSince(states, events, i, n, c) <==> events[last] != LoopReturns(c);
      }
    }
  }

  /** A loop is launched at most once per context, so its end is signalled at
      most once. */
  lemma NoSecondLaunch(states: seq<State>, events: seq<Event>, i: nat, j: nat)
    requires IsRun(states, events) && i < j < |events| && events[i].Launch? && events[j].Launch?
    ensures PcOf(states[i], events[i].t).own != PcOf(states[j], events[j].t).own
  {
    var c := PcOf(states[i], events[i].t).own;
    RunsKeepOwnership(states, events, i);
    assert MayLaunch(PcOf(states[i], events[i].t), c);
    assert c in states[i + 1].launched;
    LaunchedStays(states, events, i + 1, j, c);
    RunsKeepOwnership(states, events, j);
    NotLaunchedYet(states[j], events[j].t);
  }

  lemma NotLaunchedYet(s: State, t: Thread)
    requires Inv(s) && PcOf(s, t).AwaitingOld?
    ensures PcOf(s, t).own !in s.launched
  {
    assert MayLaunch(PcOf(s, t), PcOf(s, t).own) && LaunchedOnce(s, PcOf(s, t).own);
  }

  lemma {:induction false} LaunchedStays(states: seq<State>, events: seq<Event>, i: nat, j: nat, c: Context)
    requires IsRun(states, events) && i <= j < |states| && c in states[i].launched
    ensures c in states[j].launched
  {
    if i < j { LaunchedStays(states, events, i, j - 1, c); }
  }

  const SCRIPT := [BeginStart(0, 0), Publish(0), CancelOld(0), Launch(0),
                   BeginStop(0), BeginStart(1, 1), Publish(1), CancelOld(1), Launch(1)]

  const SCENES := [
    INITIAL,
    State({0}, {}, None, {}, {}, map[0 := Made(0)]),
    State({0}, {}, Some(0), {}, {}, map[0 := Published(0, None)]),
    State({0}, {}, Some(0), {}, {}, map[0 := AwaitingOld(0)]),
    State({0}, {}, Some(0), {0}, {0}, map[0 := Outside]),
    State({0}, {}, None, {0}, {0}, map[0 := Took(Some(0))]),
    State({0, 1}, {}, None, {0}, {0}, map[0 := Took(Some(0)), 1 := Made(1)]),
    State({0, 1}, {}, Some(1), {0}, {0}, map[0 := Took(Some(0)), 1 := Published(1, None)]),
    State({0, 1}, {}, Some(1), {0}, {0}, map[0 := Took(Some(0)), 1 := AwaitingOld(1)]),
    State({0, 1}, {}, Some(1), {0, 1}, {0, 1}, map[0 := Took(Some(0)), 1 := Outside])]

  lemma SceneFollows(i: nat)
    requires i < |SCRIPT|
    ensures Enabled(SCENES[i], SCRIPT[i]) && Apply(SCENES[i], SCRIPT[i]) == SCENES[i + 1]
  {
  }

  /** While a stop is under way two loops can go on at once: the stop has taken
      the handle of the first loop and not come round to cancelling it, when a
      start, finding no handle, launches the second. */
  lemma TwoLoopsWhileStopping()
    ensures exists states: seq<State>, events: seq<Event> ::
      IsRun(states, events) && states[|events|].running == {0, 1} && states[|events|].cancelled == {}
  {
    forall i | 0 <= i < |SCRIPT| ensures Enabled(SCENES[i], SCRIPT[i]) && SCENES[i + 1] == Apply(SCENES[i], SCRIPT[i]) {
      SceneFollows(i);
    }
    assert IsRun(SCENES, SCRIPT);
  }
}
