/** The session half of a client: the slot for a request that waits for an
    answer, the session it is in, and what it does on each message.  The class
    updates its fields as the program does; `Handle` says what must come out. */
module ClientRuntime {
  import opened Protocol

  /** A snapshot of the user's options, and the name of the device. */
  datatype Options = Options(
    enableInput: bool, autoAccept: bool, sendScreenFrames: bool, sendMockFrames: bool,
    targetId: string, targetAuthCode: string, requestMode: string, role: string, deviceName: string)

  datatype Pending = Pending(peerId: string, peerName: string, mode: string, input: bool, trusted: bool)

  datatype Joined = Joined(
    id: string, peerId: string, peerName: string, mode: string,
    localRole: string, shouldSendView: bool, inputAllowed: bool)

  datatype View = View(deviceId: string, pending: Pending, session: Joined)

  const NO_PENDING := Pending("", "", "", false, false)
  const NO_SESSION := Joined("", "", "", "", "", false, false)

  /** What becomes of the stream loop. */
  datatype Stream = KeepStream | StartStream(sessionId: string) | StopStream

  datatype Outcome = Outcome(view: View, sent: seq<Envelope>, stream: Stream)

  // --------------------------------------------------------------- specification

  /** Input is granted only if the request asked for it and the user enabled it. */
  function Approval(view: View, opts: Options): Envelope {
    Envelope(SessionConfirm, "", view.deviceId, view.pending.peerId,
             Confirm(true, "", view.pending.mode, view.pending.input && opts.enableInput))
  }

  function Rejection(view: View, reason: string): Envelope {
    Envelope(SessionConfirm, "", view.deviceId, view.pending.peerId,
             Confirm(false, if reason == "" then "rejected by user" else reason, "", false))
  }

  function Answered(view: View): View {
    view.(pending := NO_PENDING)
  }

  /** Nothing is sent without a pending request, and a failed write keeps it. */
  function Approve(view: View, opts: Options, writable: bool): Outcome {
    if view.pending.peerId == "" || !writable then Outcome(view, [], KeepStream)
    else Outcome(Answered(view), [Approval(view, opts)], KeepStream)
  }

  function Reject(view: View, reason: string, writable: bool): Outcome {
    if view.pending.peerId == "" || !writable then Outcome(view, [], KeepStream)
    else Outcome(Answered(view), [Rejection(view, reason)], KeepStream)
  }

  /** A new request replaces the waiting one, whoever sent that. */
  function Asked(view: View, msg: Envelope, trusted: bool): View
    requires msg.payload.Request?
  {
    view.(pending := Pending(msg.from, msg.payload.requesterName, NormalizeMode(msg.payload.mode),
                             msg.payload.inputRequested, trusted))
  }

  function JoinedBy(ready: Payload, opts: Options): Joined
    requires ready.Ready?
  {
    Joined(ready.readySession, ready.peerId, ready.peerName, ready.readyMode, ready.localRole,
           ready.shouldSendView || (ready.localRole == "" && (opts.sendScreenFrames || opts.sendMockFrames)),
           ready.readyInput)
  }

  /** A request for a session with device `target`, if one is named. */
  function RequestSession(view: View, target: string, code: string, opts: Options, writable: bool): Outcome {
    if target == "" || !writable then Outcome(view, [], KeepStream)
    else
      Outcome(view, [Envelope(SessionRequest, "", view.deviceId, target,
                              Request(target, opts.requestMode, code, opts.deviceName, opts.role,
                                      AllowsInput(opts.requestMode)))], KeepStream)
  }

  /** Stream control restarts the stream loop of a session this side sends the
      view of; the media options it also sets are part of the user's options. */
  function Restart(view: View, control: Payload): Stream {
    if control.Malformed? || view.session.id == "" || !view.session.shouldSendView then KeepStream
    else StartStream(view.session.id)
  }

  function Left(view: View): View {
    view.(session := NO_SESSION)
  }

  /** The response to one message.  A close ends whatever session there is: the
      session it names is not looked at. */
  function Handle(view: View, msg: Envelope, trusted: bool, opts: Options, writable: bool): Outcome {
    match msg.kind
    case DeviceRegistered =>
      if !msg.payload.Registered? then Outcome(view, [], KeepStream)
      else RequestSession(view, opts.targetId, opts.targetAuthCode, opts, writable)
    case SessionRequest =>
      if !msg.payload.Request? then Outcome(view, [], KeepStream)
      else if trusted || opts.autoAccept then Approve(Asked(view, msg, trusted), opts, writable)
      else Outcome(Asked(view, msg, trusted), [], KeepStream)
    case SessionReady =>
      if !msg.payload.Ready? then Outcome(view, [], KeepStream)
      else
        var joined := JoinedBy(msg.payload, opts);
        Outcome(view.(session := joined), [], if joined.shouldSendView then StartStream(joined.id) else StopStream)
    case SessionClose => Outcome(Left(view), [], StopStream)
    case StreamControl => Outcome(view, [], Restart(view, msg.payload))
    case _ => Outcome(view, [], KeepStream)
  }

  /** The last gate for mouse and keyboard events.  It looks at the user's option
      only, not at the session on record. */
  predicate Injects(msg: Envelope, opts: Options) {
    IsInput(msg.kind) && opts.enableInput && msg.payload != Malformed
  }

  // ------------------------------------------------------------------- the client

  class Client {
    const deviceId: string

    var pendingPeerId: string
    var pendingPeerName: string
    var pendingMode: string
    var pendingInput: bool
    var pendingTrusted: bool

    var sessionId: string
    var peerId: string
    var peerName: string
    var sessionMode: string
    var sessionLocalRole: string
    var shouldSendView: bool
    var inputAllowed: bool

    var connected: bool
    var registered: bool

    constructor (deviceId: string)
      ensures this.deviceId == deviceId && Current() == View(deviceId, NO_PENDING, NO_SESSION)
    {
      this.deviceId := deviceId;
      pendingPeerId, pendingPeerName, pendingMode, pendingInput, pendingTrusted := "", "", "", false, false;
      sessionId, peerId, peerName, sessionMode, sessionLocalRole := "", "", "", "", "";
      shouldSendView, inputAllowed, connected, registered := false, false, false, false;
    }

    function Current(): View
      reads this
    {
      View(deviceId,
           Pending(pendingPeerId, pendingPeerName, pendingMode, pendingInput, pendingTrusted),
           Joined(sessionId, peerId, peerName, sessionMode, sessionLocalRole, shouldSendView, inputAllowed))
    }

    method SetPending(p: Pending)
      modifies this`pendingPeerId, this`pendingPeerName, this`pendingMode, this`pendingInput, this`pendingTrusted
      ensures Current() == old(Current()).(pending := p)
    {
      pendingPeerId, pendingPeerName, pendingMode := p.peerId, p.peerName, p.mode;
      pendingInput, pendingTrusted := p.input, p.trusted;
    }

    method ClearPending()
      modifies this`pendingPeerId, this`pendingPeerName, this`pendingMode, this`pendingInput, this`pendingTrusted
      ensures Current() == Answered(old(Current()))
    {
      pendingPeerId, pendingPeerName, pendingMode, pendingInput, pendingTrusted := "", "", "", false, false;
    }

    method SetSession(j: Joined)
      modifies this`sessionId, this`peerId, this`peerName, this`sessionMode, this`sessionLocalRole,
               this`shouldSendView, this`inputAllowed
      ensures Current() == old(Current()).(session := j)
    {
      sessionId, peerId, peerName, sessionMode, sessionLocalRole := j.id, j.peerId, j.peerName, j.mode, j.localRole;
      shouldSendView, inputAllowed := j.shouldSendView, j.inputAllowed;
    }

    method ClearSession()
      modifies this`sessionId, this`peerId, this`peerName, this`sessionMode, this`sessionLocalRole,
               this`shouldSendView, this`inputAllowed
      ensures Current() == Left(old(Current()))
    {
      sessionId, peerId, peerName, sessionMode, sessionLocalRole := "", "", "", "", "";
      shouldSendView, inputAllowed := false, false;
    }

    /** `writable` is whether the connection takes the answer. */
    method ApproveSession(opts: Options, writable: bool) returns (sent: seq<Envelope>)
      modifies this
      ensures Outcome(Current(), sent, KeepStream) == Approve(old(Current()), opts, writable)
      ensures sent == if old(pendingPeerId) == "" || !writable then []
                      else [Envelope(SessionConfirm, "", deviceId, old(pendingPeerId),
                                     Confirm(true, "", old(pendingMode), old(pendingInput) && opts.enableInput))]
      ensures connected == old(connected) && registered == old(registered)
    {
      if pendingPeerId == "" || !writable {
        return [];
      }
      sent := [Envelope(SessionConfirm, "", deviceId, pendingPeerId,
                        Confirm(true, "", pendingMode, pendingInput && opts.enableInput))];
      ClearPending();
    }

    method RejectSession(reason: string, writable: bool) returns (sent: seq<Envelope>)
      modifies this
      ensures Outcome(Current(), sent, KeepStream) == Reject(old(Current()), reason, writable)
      ensures sent == if old(pendingPeerId) == "" || !writable then []
                      else [Envelope(SessionConfirm, "", deviceId, old(pendingPeerId),
                                     Confirm(false, if reason == "" then "rejected by user" else reason, "", false))]
      ensures connected == old(connected) && registered == old(registered)
    {
      if pendingPeerId == "" || !writable {
        return [];
      }
      var why := reason;
      if why == "" {
        why := "rejected by user";
      }
      sent := [Envelope(SessionConfirm, "", deviceId, pendingPeerId, Confirm(false, why, "", false))];
      ClearPending();
    }

    /** An answer goes out at once, and is an accepting one, if and only if the
        sender is trusted or the user accepts all; otherwise the request waits. */
    method HandleSessionRequest(msg: Envelope, trusted: bool, opts: Options, writable: bool)
      returns (sent: seq<Envelope>)
      requires msg.kind == SessionRequest
      modifies this
      ensures Outcome(Current(), sent, KeepStream) == Handle(old(Current()), msg, trusted, opts, writable)
      ensures sent != [] <==> msg.payload.Request? && (trusted || opts.autoAccept) && msg.from != "" && writable
      ensures sent != [] ==> sent == [Envelope(SessionConfirm, "", deviceId, msg.from,
                                               Confirm(true, "", NormalizeMode(msg.payload.mode),
                                                       msg.payload.inputRequested && opts.enableInput))]
                             && pendingPeerId == ""
      ensures sent == [] && msg.payload.Request? ==>
                && pendingPeerId == msg.from && pendingPeerName == msg.payload.requesterName
                && pendingMode == NormalizeMode(msg.payload.mode) && pendingInput == msg.payload.inputRequested
                && pendingTrusted == trusted
      ensures connected == old(connected) && registered == old(registered)
    {
      if !msg.payload.Request? {
        return [];
      }
      SetPending(Pending(msg.from, msg.payload.requesterName, NormalizeMode(msg.payload.mode),
                         msg.payload.inputRequested, trusted));
      assert Current() == Asked(old(Current()), msg, trusted);
      if trusted {
        sent := ApproveSession(opts, writable);
      } else if !opts.autoAccept {
        sent := [];
      } else {
        sent := ApproveSession(opts, writable);
      }
    }

    method HandleSessionReady(ready: Payload, opts: Options) returns (stream: Stream)
      requires ready.Ready?
      modifies this
      ensures Current() == old(Current()).(session := JoinedBy(ready, opts))
      ensures sessionId == ready.readySession && peerId == ready.peerId && peerName == ready.peerName
      ensures sessionMode == ready.readyMode && sessionLocalRole == ready.localRole && inputAllowed == ready.readyInput
      ensures shouldSendView <==> ready.shouldSendView
                                  || (ready.localRole == "" && (opts.sendScreenFrames || opts.sendMockFrames))
      ensures stream == if shouldSendView then StartStream(sessionId) else StopStream
      ensures connected == old(connected) && registered == old(registered)
    {
      var send := ready.shouldSendView;
      if ready.localRole == "" && (opts.sendScreenFrames || opts.sendMockFrames) {
        send := true;
      }
      SetSession(Joined(ready.readySession, ready.peerId, ready.peerName, ready.readyMode, ready.localRole,
                        send, ready.readyInput));
      if send {
        stream := StartStream(ready.readySession);
      } else {
        stream := StopStream;
      }
    }

    method RequestSessionWithCode(target: string, code: string, opts: Options, writable: bool) returns (sent: seq<Envelope>)
      ensures Outcome(Current(), sent, KeepStream) == RequestSession(Current(), target, code, opts, writable)
    {
      if target == "" || !writable {
        return [];
      }
      sent := [Envelope(SessionRequest, "", deviceId, target,
                        Request(target, opts.requestMode, code, opts.deviceName, opts.role, AllowsInput(opts.requestMode)))];
    }

    /** What a registered device does first: ask for the session the user wants. */
    method HandleRegistered(payload: Payload, opts: Options, writable: bool) returns (sent: seq<Envelope>)
      modifies this`registered
      ensures Outcome(Current(), sent, KeepStream)
           == if payload.Registered? then RequestSession(old(Current()), opts.targetId, opts.targetAuthCode, opts, writable)
              else Outcome(old(Current()), [], KeepStream)
      ensures sent == if payload.Registered? && opts.targetId != "" && writable
                      then [Envelope(SessionRequest, "", deviceId, opts.targetId,
                                     Request(opts.targetId, opts.requestMode, opts.targetAuthCode, opts.deviceName, opts.role,
                                             opts.requestMode == MODE_VIEW_CONTROL))]
                      else []
      ensures registered == (old(registered) || payload.Registered?)
    {
      sent := [];
      if payload.Registered? {
        registered := true;
        if opts.targetId != "" {
          sent := RequestSessionWithCode(opts.targetId, opts.targetAuthCode, opts, writable);
        }
      }
    }

    method HandleStreamControl(payload: Payload) returns (stream: Stream)
      ensures stream == Restart(Current(), payload)
      ensures stream == if !payload.Malformed? && sessionId != "" && shouldSendView then StartStream(sessionId) else KeepStream
    {
      if payload.Malformed? || sessionId == "" || !shouldSendView {
        return KeepStream;
      }
      stream := StartStream(sessionId);
    }

    /** Mouse and keyboard events are injected only while the user's option is on. */
    method HandleInput(msg: Envelope, opts: Options) returns (injected: bool)
      requires IsInput(msg.kind)
      ensures injected == Injects(msg, opts)
      ensures injected <==> opts.enableInput && !msg.payload.Malformed?
    {
      if !opts.enableInput {
        return false;
      }
      injected := !msg.payload.Malformed?;
    }

    method HandleMessage(msg: Envelope, trusted: bool, opts: Options, writable: bool)
      returns (sent: seq<Envelope>, stream: Stream, injected: bool)
      modifies this
      ensures Outcome(Current(), sent, stream) == Handle(old(Current()), msg, trusted, opts, writable)
      ensures injected <==> (msg.kind == InputMouse || msg.kind == InputKeyboard) && opts.enableInput && !msg.payload.Malformed?
      ensures connected == old(connected)
      ensures registered == (old(registered) || (msg.kind == DeviceRegistered && msg.payload.Registered?))
    {
      sent, stream, injected := [], KeepStream, false;
      match msg.kind
      case DeviceRegistered =>
        sent := HandleRegistered(msg.payload, opts, writable);
      case SessionRequest =>
        sent := HandleSessionRequest(msg, trusted, opts, writable);
      case SessionReady =>
        if msg.payload.Ready? {
          stream := HandleSessionReady(msg.payload, opts);
        }
      case SessionClose =>
        stream := StopStream;
        ClearSession();
      case StreamControl =>
        stream := HandleStreamControl(msg.payload);
      case InputMouse | InputKeyboard =>
        injected := HandleInput(msg, opts);
      case _ =>
    }

    /** Losing the connection ends the session; a waiting request survives it. */
    method MarkDisconnected() returns (stream: Stream)
      modifies this
      ensures Current() == Left(old(Current())) && stream == StopStream
      ensures sessionId == "" && !shouldSendView && !inputAllowed && Current().pending == old(Current().pending)
      ensures !connected && !registered
    {
      stream := StopStream;
      connected, registered := false, false;
      ClearSession();
    }
  }

  // -------------------------------------------------------------------- properties

  /** One message, at most one envelope in return.  An answer goes to the requester
      just put on record, and grants input only if that very request asked for it
      and the user had enabled it; a request of its own goes to the device the user
      named, on registration only. */
  lemma AnswersAreConsented(view: View, msg: Envelope, trusted: bool, opts: Options, writable: bool)
    ensures var out := Handle(view, msg, trusted, opts, writable);
      && |out.sent| <= 1
      && (forall e :: e in out.sent ==> e.from == view.deviceId && (e.kind == SessionConfirm || e.kind == SessionRequest))
      && (forall e :: e in out.sent && e.kind == SessionConfirm ==>
            && e.to == msg.from != "" && msg.kind == SessionRequest && msg.payload.Request?
            && e.payload == Confirm(true, "", NormalizeMode(msg.payload.mode),
                                    msg.payload.inputRequested && opts.enableInput)
            && out.view.pending == NO_PENDING)
      && (forall e :: e in out.sent && e.kind == SessionRequest ==>
            && msg.kind == DeviceRegistered && msg.payload.Registered? && out.view == view
            && e.to == opts.targetId != "" && e.payload.Request? && e.payload.target == e.to
            && (e.payload.inputRequested <==> opts.requestMode == MODE_VIEW_CONTROL))
  {
  }

  /** What a message does to the stream loop: an announcement starts it if this side
      is to send its view and stops it otherwise, stream control starts it anew for
      a session whose view is sent, a close stops it, and nothing else touches it. */
  lemma StreamOrders(view: View, msg: Envelope, trusted: bool, opts: Options, writable: bool)
    ensures var out := Handle(view, msg, trusted, opts, writable);
      var sends := msg.payload.Ready? && (msg.payload.shouldSendView
                   || (msg.payload.localRole == "" && (opts.sendScreenFrames || opts.sendMockFrames)));
      && (msg.kind == SessionReady && msg.payload.Ready? ==>
            out.stream == if sends then StartStream(msg.payload.readySession) else StopStream)
      && (msg.kind == StreamControl ==>
            out.stream == if !msg.payload.Malformed? && view.session.id != "" && view.session.shouldSendView
                          then StartStream(view.session.id) else KeepStream)
      && (msg.kind == SessionClose ==> out.stream == StopStream)
      && (msg.kind !in {SessionReady, StreamControl, SessionClose} || (msg.kind == SessionReady && !msg.payload.Ready?) ==>
            out.stream == KeepStream && out.view.session == view.session)
  {
  }

  /** Everything that happens to a client, one act at a time. */
  datatype Act =
    | Got(msg: Envelope, trusted: bool, opts: Options, writable: bool)
    | Approved(opts: Options, writable: bool)
    | Rejected(reason: string, writable: bool)
    | Disconnected

  function Do(view: View, act: Act): Outcome {
    match act
    case Got(msg, trusted, opts, writable) => Handle(view, msg, trusted, opts, writable)
    case Approved(opts, writable) => Approve(view, opts, writable)
    case Rejected(reason, writable) => Reject(view, reason, writable)
    case Disconnected => Outcome(Left(view), [], StopStream)
  }

  /** All that happens to a client that starts out as `first`; a request may wait
      from a connection before. */
  function Run(first: View, acts: seq<Act>): Outcome {
    if acts == [] then Outcome(first, [], KeepStream)
    else
      var before := Run(first, acts[..|acts| - 1]);
      var out := Do(before.view, acts[|acts| - 1]);
      Outcome(out.view, before.sent + out.sent, out.stream)
  }

  predicate IsRequest(act: Act) {
    act.Got? && act.msg.kind == SessionRequest && act.msg.payload.Request?
  }

  /** The number of requests received. */
  function Requests(acts: seq<Act>): nat {
    if acts == [] then 0 else Requests(acts[..|acts| - 1]) + if IsRequest(acts[|acts| - 1]) then 1 else 0
  }

  /** The number of answers sent. */
  function Answers(sent: seq<Envelope>): nat {
    if sent == [] then 0
    else Answers(sent[..|sent| - 1]) + if sent[|sent| - 1].kind == SessionConfirm then 1 else 0
  }

  lemma {:induction false} AnswersAdd(a: seq<Envelope>, b: seq<Envelope>)
    ensures Answers(a + b) == Answers(a) + Answers(b)
  {
    if b == [] {
      assert a + b == a;
    } else {
      AnswersAdd(a, b[..|b| - 1]);
      assert (a + b)[..|a + b| - 1] == a + b[..|b| - 1];
    }
  }

  lemma AnswersOfOne(out: seq<Envelope>)
    requires |out| <= 1
    ensures Answers(out) == if out != [] && out[0].kind == SessionConfirm then 1 else 0
  {
    if out != [] { assert out[..0] == []; }
  }

  lemma OneAct(view: View, act: Act)
    ensures var out := Do(view, act); var request := if IsRequest(act) then 1 else 0;
      && |out.sent| <= 1 && out.view.deviceId == view.deviceId
      && Answers(out.sent) + (if out.view.pending.peerId != "" then 1 else 0)
         <= (if view.pending.peerId != "" then 1 else 0) + request
  {
    AnswersOfOne(Do(view, act).sent);
  }

  /** No request is answered twice: over a whole run answers never outnumber
      requests, one that waits from before included, and while one waits there is
      one to spare. */
  lemma {:induction false} NoRequestAnsweredTwice(first: View, acts: seq<Act>)
    ensures var out := Run(first, acts);
      && Answers(out.sent) + (if out.view.pending.peerId != "" then 1 else 0)
         <= Requests(acts) + (if first.pending.peerId != "" then 1 else 0)
      && out.view.deviceId == first.deviceId
  {
    if acts != [] {
      var prefix, act := acts[..|acts| - 1], acts[|acts| - 1];
      NoRequestAnsweredTwice(first, prefix);
      OneAct(Run(first, prefix).view, act);
      AnswersAdd(Run(first, prefix).sent, Do(Run(first, prefix).view, act).sent);
    }
  }

  // ------------------------------------------------------------ consent over runs

  /** The user approves, or a request comes in from a trusted device or while the
      user accepts all. */
  predicate Consents(act: Act) {
    act.Approved? || (IsRequest(act) && (act.trusted || act.opts.autoAccept))
  }

  /** The act answers whatever waits: the answer can be written, and the user
      approves or rejects, or a request is answered as it comes in. */
  predicate Settles(act: Act) {
    (act.Approved? && act.writable) || (act.Rejected? && act.writable) || (Consents(act) && !act.Approved? && act.writable)
  }

  /** What is on record for the request of `act`. */
  function PendingOf(act: Act): Pending
    requires IsRequest(act)
  {
    Pending(act.msg.from, act.msg.payload.requesterName, NormalizeMode(act.msg.payload.mode),
            act.msg.payload.inputRequested, act.trusted)
  }

  /** Request `j` waits at `n`: it came with a sender and was not answered at once,
      and since then no other came and the user has not answered. */
  predicate Waits(acts: seq<Act>, j: nat, n: nat) {
    && j < n <= |acts| && IsRequest(acts[j]) && acts[j].msg.from != "" && !Settles(acts[j])
    && forall k :: j < k < n ==> !IsRequest(acts[k]) && !Settles(acts[k])
  }

  function NewClient(deviceId: string): View {
    View(deviceId, NO_PENDING, NO_SESSION)
  }

  lemma PendingAfter(view: View, act: Act)
    ensures var pending := Do(view, act).view.pending;
      && (IsRequest(act) && !Settles(act) ==> pending == PendingOf(act))
      && (IsRequest(act) && act.msg.from == "" ==> pending.peerId == "")
      && (Settles(act) ==> pending.peerId == "")
      && (!IsRequest(act) && !Settles(act) ==> pending == view.pending)
  {
  }

  lemma WaitsStep(acts: seq<Act>, i: nat, last: nat)
    requires last < |acts|
    ensures Waits(acts, i, last + 1) <==>
            if IsRequest(acts[last]) then i == last && acts[last].msg.from != "" && !Settles(acts[last])
            else Waits(acts, i, last) && !Settles(acts[last])
  {
  }

  lemma RunStep(first: View, acts: seq<Act>, n: nat)
    requires n < |acts|
    ensures Run(first, acts[..n + 1]).view == Do(Run(first, acts[..n]).view, acts[n]).view
  {
    assert acts[..n + 1][..n] == acts[..n];
  }

  lemma {:induction false} WaitingIsPending(deviceId: string, acts: seq<Act>, n: nat) returns (j: nat)
    requires n <= |acts|
    ensures var pending := Run(NewClient(deviceId), acts[..n]).view.pending;
      && (forall i: nat :: Waits(acts, i, n) ==> i == j && pending == PendingOf(acts[i]))
      && (pending.peerId != "" ==> Waits(acts, j, n))
  {
    j := 0;
    if n > 0 {
      var last := n - 1;
      j := WaitingIsPending(deviceId, acts, last);
      RunStep(NewClient(deviceId), acts, last);
      PendingAfter(Run(NewClient(deviceId), acts[..last]).view, acts[last]);
      forall i: nat
        ensures Waits(acts, i, n) <==>
                if IsRequest(acts[last]) then i == last && acts[last].msg.from != "" && !Settles(acts[last])
                else Waits(acts, i, last) && !Settles(acts[last])
      {
        WaitsStep(acts, i, last);
      }
      if IsRequest(acts[last]) { j := last; }
    }
  }

  /** What act `i` makes a new client send. */
  function SentAt(deviceId: string, acts: seq<Act>, i: nat): seq<Envelope>
    requires i < |acts|
  {
    Do(Run(NewClient(deviceId), acts[..i]).view, acts[i]).sent
  }

  predicate IsAnswer(e: Envelope, accepted: bool) {
    e.kind == SessionConfirm && e.payload.Confirm? && e.payload.accepted == accepted
  }

  /** The request that act `i` is about: the one coming in, or the one waiting. */
  predicate About(acts: seq<Act>, i: nat, j: nat)
    requires i < |acts|
  {
    if IsRequest(acts[i]) then j == i && acts[i].msg.from != "" else Waits(acts, j, i)
  }

  lemma OneAnswer(view: View, act: Act)
    ensures var sent := Do(view, act).sent;
      var asked := if IsRequest(act) then PendingOf(act) else view.pending;
      && ((exists e :: e in sent && IsAnswer(e, true)) <==> Consents(act) && act.writable && asked.peerId != "")
      && (forall e :: e in sent && IsAnswer(e, true) ==>
            e == Envelope(SessionConfirm, "", view.deviceId, asked.peerId,
                          Confirm(true, "", asked.mode,
                                  asked.input && (act.Approved? || act.Got?) && act.opts.enableInput)))
      && ((exists e :: e in sent && IsAnswer(e, false)) <==> act.Rejected? && act.writable && view.pending.peerId != "")
      && (forall e :: e in sent && IsAnswer(e, false) ==> e.to == view.pending.peerId && e.from == view.deviceId)
  {
    var out := Do(view, act);
    if out.sent != [] { assert out.sent[0] in out.sent; }
  }

  /** Over every run of a new client: an accepting answer goes out at an act if and
      only if that act is an approval by the user, or a request received as trusted
      or while the user accepts all, and there is a request to answer; a declining
      one if and only if the user rejects one that waits.  The answer goes to the
      sender of that very request, in its mode, with input exactly if it asked for
      it and the option is on. */
  lemma AnsweredIff(deviceId: string, acts: seq<Act>, i: nat)
    requires i < |acts|
    ensures (exists e :: e in SentAt(deviceId, acts, i) && IsAnswer(e, true)) <==>
            && (acts[i].Approved? || (IsRequest(acts[i]) && (acts[i].trusted || acts[i].opts.autoAccept)))
            && acts[i].writable && exists j: nat :: About(acts, i, j)
    ensures (exists e :: e in SentAt(deviceId, acts, i) && IsAnswer(e, false)) <==>
            acts[i].Rejected? && acts[i].writable && exists j: nat :: About(acts, i, j)
    ensures forall e, j: nat :: e in SentAt(deviceId, acts, i) && IsAnswer(e, true) && About(acts, i, j) ==>
              var request := acts[j].msg;
              e == Envelope(SessionConfirm, "", deviceId, request.from,
                            Confirm(true, "", NormalizeMode(request.payload.mode),
                                    request.payload.inputRequested && acts[i].opts.enableInput))
    ensures forall e, j: nat :: e in SentAt(deviceId, acts, i) && IsAnswer(e, false) && About(acts, i, j) ==>
              e.from == deviceId && e.to == acts[j].msg.from
  {
    var view := Run(NewClient(deviceId), acts[..i]).view;
    NoRequestAnsweredTwice(NewClient(deviceId), acts[..i]);
    OneAnswer(view, acts[i]);
    var j := WaitingIsPending(deviceId, acts, i);
    if IsRequest(acts[i]) && acts[i].msg.from != "" { assert About(acts, i, i); }
    if !IsRequest(acts[i]) && view.pending.peerId != "" { assert About(acts, i, j); }
  }

  /** The session whose stream loop was started last and not stopped since. */
  function Streaming(first: View, acts: seq<Act>): Option<string> {
    if acts == [] then None
    else
      match Do(Run(first, acts[..|acts| - 1]).view, acts[|acts| - 1]).stream
      case StartStream(sid) => Some(sid)
      case StopStream => None
      case KeepStream => Streaming(first, acts[..|acts| - 1])
  }

  /** Over any run, the stream loop is that of the session on record, and there is
      one exactly if this side is to send its view. */
  lemma {:induction false} StreamFollowsSession(first: View, acts: seq<Act>)
    requires first.session == NO_SESSION
    ensures var session := Run(first, acts).view.session;
      Streaming(first, acts) == if session.shouldSendView then Some(session.id) else None
  {
    if acts != [] { StreamFollowsSession(first, acts[..|acts| - 1]); }
  }

  predicate IsReady(act: Act) {
    act.Got? && act.msg.kind == SessionReady && act.msg.payload.Ready?
  }

  /** A close or a disconnect, whatever session it is about. */
  predicate Ends(act: Act) {
    act.Disconnected? || (act.Got? && act.msg.kind == SessionClose)
  }

  /** `i` is the last announcement of a session, and nothing has ended it since. */
  predicate LastReady(acts: seq<Act>, i: nat) {
    i < |acts| && IsReady(acts[i]) && forall k :: i < k < |acts| ==> !IsReady(acts[k]) && !Ends(acts[k])
  }

  lemma ActOnSession(view: View, act: Act)
    ensures var session := Do(view, act).view.session;
      session == if IsReady(act) then JoinedBy(act.msg.payload, act.opts) else if Ends(act) then NO_SESSION else view.session
  {
  }

  /** `session` is that of the last ready message, if no close message and no
      disconnect came after it, and no session otherwise. */
  ghost predicate OnRecord(acts: seq<Act>, session: Joined) {
    && (forall i: nat :: LastReady(acts, i) ==> session == JoinedBy(acts[i].msg.payload, acts[i].opts))
    && ((forall i: nat :: !LastReady(acts, i)) ==> session == NO_SESSION)
  }

  lemma OnRecordOn(acts: seq<Act>, view: View, act: Act)
    requires OnRecord(acts, view.session)
    ensures OnRecord(acts + [act], Do(view, act).view.session)
  {
    ActOnSession(view, act);
    LastReadyOn(acts + [act], acts, act);
  }

  /** The announcement of session `sid` was heard, and after it neither another
      announcement nor a close nor a disconnect. */
  predicate LastAnnounced(acts: seq<Act>, sid: string) {
    exists i: nat :: i < |acts| && IsReady(acts[i]) && acts[i].msg.payload.readySession == sid
      && forall k :: i < k < |acts| ==> !IsReady(acts[k]) && !Ends(acts[k])
  }

  lemma OnRecordIff(acts: seq<Act>, session: Joined, sid: string)
    requires OnRecord(acts, session) && sid != ""
    ensures session.id == sid <==> LastAnnounced(acts, sid)
  {
    if i: nat :| LastReady(acts, i) { assert session == JoinedBy(acts[i].msg.payload, acts[i].opts); }
  }

  lemma {:induction false} SessionOfLastReady(first: View, acts: seq<Act>)
    requires first.session == NO_SESSION
    ensures OnRecord(acts, Run(first, acts).view.session)
  {
    if acts != [] {
      var prefix, act := acts[..|acts| - 1], acts[|acts| - 1];
      SessionOfLastReady(first, prefix);
      OnRecordOn(prefix, Run(first, prefix).view, act);
      assert acts == prefix + [act];
    }
  }

  lemma LastReadyOn(acts: seq<Act>, prefix: seq<Act>, act: Act)
    requires acts == prefix + [act]
    ensures IsReady(act) ==> LastReady(acts, |prefix|) && forall i: nat :: LastReady(acts, i) ==> i == |prefix|
    ensures !IsReady(act) && Ends(act) ==> forall i: nat :: !LastReady(acts, i)
    ensures !IsReady(act) && !Ends(act) ==> forall i: nat :: LastReady(acts, i) <==> LastReady(prefix, i)
  {
    assert acts[|prefix|] == act;
    assert forall k :: 0 <= k < |prefix| ==> acts[k] == prefix[k];
  }
}
