# BeaconDesk: a verified model of the relay protocol and its clients

This project models, in Dafny, the behaviour of BeaconDesk's relay (device
registry, session authorization, forwarding, web control links), of the client's
session and streaming machinery, of the relay's bandwidth limiter, and of two
small pieces of the client: frame suppression and the pointer pipeline.  It
proves properties of whole runs of these models.  `dafny verify dfyconfig.toml`
checks everything.

## How it is organized

| file | what it models |
|---|---|
| `Protocol.dfy` | modes, message kinds, envelopes, 64-bit durations |
| `PendingMap.dfy`, `AuthCode.dfy`, `WebShares.dfy` | the pending-request map with its string key, the temporary-code slot, the web control links with lazy expiry: each a small machine with theorems over all its runs |
| `Registry.dfy` | the relay's five tables and every critical section on them, for connections of any type |
| `RelayServer.dfy` | the relay's objects: connections with bounded queues, and the server class with all its handlers, proved against the functions above |
| `RelaySystem.dfy` | the relay as it runs: any number of connections whose handlers interleave at the granularity of the mutex and carry what they looked up across unlocks |
| `RelayInvariants.dfy`, `RelaySteps.dfy`, `RelayRuns.dfy` | the invariant of that system and the proof that every event keeps it |
| `RelayTheorems.dfy`, `RelayLifeCycle.dfy`, `RelaySeats.dfy`, `RelayForwarding.dfy`, `RelayRefinement.dfy`, `RelayMoves.dfy` | theorems over all runs: input soundness, provenance, ordered delivery; how sessions end; who holds a seat, hand-over, who sends; what the tables held while a message was handled; the tables as runs of the small machines, the code and link gates |
| `RelayVisits.dfy` | visitors over whole runs: what a link lets them ask for |
| `RelayAlone.dfy`, `RelayAloneSessions.dfy`, `RelayAloneOthers.dfy`, `RelayTearDown.dfy` | what the relay does do, stated apart from the steps that do it: for every kind of message and every state, what comes of it when its handler runs by itself, and what one tear-down takes along |
| `RelayScenes.dfy`, `EndToEndScenes.dfy` | concrete runs that show what the theorems leave possible |
| `ClientRuntime.dfy`, `EndToEnd.dfy` | a client's pending slot and session; clients and relay together |
| `Limiter.dfy`, `StreamLoops.dfy`, `AdaptiveLoop.dfy`, `ChangeDetector.dfy`, `PointerMapping.dfy` | token bucket; cancel-handle ownership; quality and frame-rate feedback; frame suppression; pointer coordinates |

The same functions of `Registry`, `WebShares`, `PendingMap` and `AuthCode` specify
the methods of the server class and are the steps of the interleaving system.
The invariant is kept by every event of every connection; connections other than
the clients of `EndToEnd` may send anything at any time.

Where a lemma states a long predicate as `P(x) == true`, this only tells the
verifier to treat it as one fact.

## What the proofs brought to light

- A confirm without a matching request creates a session all the same, in the
  accepted mode.  When a request was stored, its mode decides, even if a later
  request replaced the one the user answered; such a session never carries input
  (`EndToEnd.OtherModeCarriesNoInput`).
- A connection's device id is set before it is known whether it is admitted, so a
  connection refused for capacity passes the checks of that id's sessions: its
  input is forwarded, and when it closes, it ends those sessions
  (`RelayScenes.RefusedConnectionActs`; `RelaySeats.SenderSeatIff` says when a
  sender had a seat).
- A torn-down connection can be listed: if its registration is decided after the
  tear-down, and in no other case (`RelaySeats.TornSeatedIff`, with a run in
  `RelayScenes`).
  A newcomer that displaces such a connection finds nothing cleared
  (`RelaySeats.HandOverIff`, `RelayScenes.HandOverClearsNothing`).
- A client injects input without regard to the session it has on record
  (`EndToEnd.InjectedOnRecordIff` says when the two agree,
  `EndToEndScenes.InjectsOffRecord` shows a run in which they do not).
- The sessions a displaced connection takes down are announced to the newcomer
  under the same id, since notices go by id.
- Both ends of a pending request are registered when its handler runs alone, but
  not in every interleaving (`Registry.PendingOnlineBreaksIff`).
- A message within the burst can wait for ever in front of the limiter when the
  timers fire on time, because a failed attempt throws the bucket's content away
  (`Limiter.OnTimeAdmittedIff`); one longer than the burst always does.
- From a chosen quality of 90 on, the quality tracked by the feedback loop and
  that of the capturer drift apart (`AdaptiveLoop.ActualIsTrackedIff` has the exact
  options).
- Look-ups and listings read the clock before they take the mutex, so one may be
  judged by a later reading than its own (`WebShares.LiveIsGranted`).
- The stream-loop handle has one owner at any time, yet two loops can run at once
  while a start or stop is under way (`StreamLoops.TwoLoopsWhileStopping`;
  `StreamLoops.AtMostOneLoopIff` says exactly when there is at most one).
- Extreme aspect ratios give an empty frame, over which a scroll event divides by
  zero; sources of at most one pixel make the coordinate normalization divide by
  zero (`PointerMapping`).
- A revoke answers positively for links that are dead but not yet purged
  (`WebShares.RevokeAnswerDiffersIff`).

## Model

| member | source | states |
|---|---|---|
| `RelayTheorems.InputSoundness` | internal/relay/server.go:498-540 | In every run and every interleaving: whatever mouse or keyboard envelope was ever offered to a queue differs only in From and To from a message of a connection with the id of the controller of a session with input allowed; and at steps between the receipt of that message and the offer the session was stored and the recipient was the device registered under its controlled id, although handlers use sessions and connections after dropping the lock. |
| `RelayTheorems.TrafficStaysInSession` | internal/relay/server.go:498-526 | Frames, controls, input and telemetry travel only between the two ids of the session they name, which was stored, and to a connection that was listed under the id, while the message was being handled. |
| `RelayForwarding.RecipientsHeldTheirSeats` | internal/relay/server.go:568-590 | Whatever is forwarded, every request, decline and close notice, and every announcement to a controller goes to a connection that the relay listed, as device or visitor, under the id it is addressed to at a step between the receipt of the message behind it and the offer. |
| `RelaySeats.SenderSeatIff` | internal/relay/server.go:331-339 | Who sent forwarded input or stream control: a visitor had been listed under its id; a device had been if and only if the relay was not full at the one earlier step that decided on its registration. |
| `RelayScenes.RefusedConnectionActs` | internal/relay/server.go:331-339 | A concrete run, every close caused: a connection refused for capacity under the id of a session's controller clicks, the click reaches the controlled device, and when the connection closes the session of the two registered devices ends. |
| `RelayTheorems.Provenance` | internal/relay/server.go:427-461 | Every session ever created stems from an accepted confirm taken from the connection of its controlled device and answering its controller; its mode is that of the consumed request if there was one and the accepted mode otherwise; input needs the confirm to carry it. |
| `RelayTheorems.ConsumedRequestOfThePair` | internal/relay/hub.go:110-132 | If the two ids of a session are NUL-free, the request it consumed was made by its controller for its controlled device, whatever ids others use. |
| `RelayTheorems.NothingAuthorizesTwice` | internal/relay/server.go:451-461 | No confirm makes two sessions and no request is consumed for two. |
| `RelayTheorems.OrderedDelivery` | internal/relay/client.go:63-101 | Per recipient: what is written is a prefix of what the queue accepted, that is a subsequence of what was offered, at most 128 wait, and one sender's forwarded envelopes arrive in the order it sent them, gaps allowed. |
| `RelayTheorems.RegistrySafety` | internal/relay/hub.go:21-108 | In every reachable state sessions join registered endpoints in a proper mode with input only under view-control, devices are listed under their own ids, and the client limit holds. |
| `RelayRuns.RunsKeepInvariant` | internal/relay/server.go:247-282 | The invariant behind these theorems holds in every state of every run of the interleaving relay. |
| `RelayRuns.StepKeeps` | internal/relay/server.go:247-282 | Every event keeps the invariant, forgets nothing, changes seats only by admission or tear-down, and ends sessions only together with their notices. |
| `RelayMoves.RunMovesOnly` | internal/relay/server.go:247-282 | A section of a handler moves that handler on and changes nobody's identity, inbox or position otherwise. |
| `RelayLifeCycle.NeverResurrected` | internal/relay/hub.go:140-146 | A session is created once; once removed it never comes back, whatever touches come late. |
| `RelayLifeCycle.RemovedOnce` | internal/relay/hub.go:54-62 | The step that removes a session is unique. |
| `RelayLifeCycle.ClosedExactlyOnce` | internal/relay/hub.go:148-167 | While a session lives nobody is told of its end; afterwards the close notices ever offered about it are exactly one per endpoint registered at the one step that removed it, for closes by message, by device tear-down and by visitor tear-down alike. |
| `RelayLifeCycle.FallClears` | internal/relay/hub.go:46-74 | A tear-down leaves no session, request, seat or live link of the id, and touches no other connection's seat. |
| `RelayLifeCycle.TornOnce` | internal/relay/client.go:103-109 | No connection is torn down twice: a later close of an old connection changes nothing. |
| `RelaySeats.HandOverIff` | internal/relay/hub.go:21-44 | A newcomer admitted at step m displaces x and goes on at step n: x is torn down in between if and only if it was not torn down before m; at that tear-down every session, request and live link of the id goes and every other seat stays; admission and going on change nothing but the seat, which is the newcomer's. |
| `RelayScenes.HandOverClearsNothing` | internal/relay/hub.go:21-44 | A concrete run of the other case, every close caused: the displaced connection had been torn down before, and the session naming the id outlives the hand-over. |
| `RelaySeats.SeatKept` | internal/relay/hub.go:34-38 | A registered connection keeps its id until its own tear-down or the admission of another one. |
| `RelaySeats.TornSeatedIff` | internal/relay/server.go:331-339 | A connection is listed and torn down if and only if it fell, was admitted at a later step with the relay not full, and nobody has been admitted under the id since. |
| `RelayScenes.SeatedAfterTearDown` | internal/relay/server.go:331-339 | A concrete run of it, in which every close has a cause of the program: the write of an earlier error reply fails between the register message and the admission. |
| `RelayRefinement.TablesAreRuns` | internal/relay/hub.go:110-132 | In every run of the relay the links, the pending requests and each connection's code are runs of the small machines over the operations the relay's steps amount to, look-ups of links by page loads and upgrades included. |
| `RelayRefinement.LinksFollowHistory` | internal/relay/webshare.go:119-172 | In every relay run, whatever the order of clock readings, a link is live exactly if history granted it, did not take it back, and it has not expired by the reading that counts; that is the section's own unless a look-up or listing that read the clock later ran before it. |
| `RelayRefinement.LinkStaysDead` | internal/relay/webshare.go:119-139 | In every relay run in which no token is drawn twice, a link that was stored and is dead at some step is dead at all later steps, for all readings no earlier. |
| `RelayRefinement.PendingFollowsHistory` | internal/relay/hub.go:114-132 | In every relay run a confirm for a pair of NUL-free ids finds just the last request stored for that pair, unless consumed or dropped since, whatever ids others use. |
| `RelayRefinement.CodesFollowPublishes` | internal/relay/server.go:284-317 | In every relay run the code stored for a connection is empty or the six digits of an earlier publish of its own device, with an expiry at most thirty minutes after it. |
| `RelayRefinement.NoRequestPastTheCode` | internal/relay/server.go:377-381 | A device's request is stored only after an earlier step of the same handler has checked its code against the target's: none was stored, or it was the one stored, in time; either way it is whatever code the target had published that still stood, in time. No code is stored after that step, and the handler has stood waiting to store ever since. |
| `RelayRefinement.CodeGateIff` | internal/relay/server.go:396-413 | In every run, the check of a request goes on to the store if and only if whatever code the target has published, and no later publish, match or late attempt has replaced or used up, is the one given, in time; otherwise it goes on to an error reply. |
| `RelayRefinement.NoVisitorPastTheLink` | internal/relay/webpeer.go:72-84 | A visitor is admitted and its request stored only after an earlier step of the same handler found its link stored, not revoked, not expired, and the device it was made for online. |
| `RelayVisits.VisitorsAreLinked` | internal/relay/webpeer.go:26-39 | Every visitor's connection stems from a visit at which the history had granted the link of its token and not taken it back; it is bound for the device that created that link, and in view-control if and only if that device asked for it. |
| `RelayVisits.VisitorAsksAsLinked` | internal/relay/webpeer.go:72-93 | In every run, the request put on record for a visitor, and what its device is then asked, are for the device that created the link the visitor came by, and in view-control, with input, if and only if the create of that link asked for view-control. |
| `RelayAlone.TrafficAlone` | internal/relay/server.go:498-551 | Frames, telemetry, input and stream control from a device or a visitor, from any state: if the session is stored, the sender is the end of it from which that kind may come, input is allowed if it is input, and the other end is listed, then just that message, restamped, is offered to the other end and the session counts as active, with an error reply only if the queue refused it; in every other case there is an error reply and nothing else. |
| `RelayAlone.OneOutcome` | internal/relay/server.go:247-282 | Where a handler that runs by itself comes to rest is determined by its choices, so these laws give the only outcome. |
| `RelayAlone.AloneInRuns` | internal/relay/server.go:247-282 | Whatever a handler comes to by itself, it comes to in some run that continues any given one. |
| `RelayAlone.QueueTakes` | internal/relay/client.go:91-101 | A full queue takes nothing, one with room of an open connection takes everything, and with a closed connection both outcomes are possible. |
| `RelayAloneSessions.RequestAlone` | internal/relay/server.go:362-394 | A session request of a device, from any state: if it has registered, the target is listed and no code is stored for it or the stored one is given in time, the request is on record for the pair, in its mode, and offered to the target without the code; in every other case there is an error reply and no request. A code given, or expired, is gone. |
| `RelayAloneSessions.ConfirmAlone` | internal/relay/server.go:427-496 | A confirm of a device, from any reachable state: a decline is passed on to the one it answers; an accept stores the session, in the mode of the pair's request if there is one, with input exactly if that mode has it and the confirm grants it, and tells both ends, the controlled one that it is to send its view; the request is gone either way; all other outcomes with their exact conditions. |
| `RelayAloneSessions.CloseAlone` | internal/relay/server.go:553-566 | A close, from anyone: the session named is gone and its listed ends are told, with the reason for a device or a visitor; without such a session nothing happens. |
| `RelayAloneOthers.RegistrationAlone` | internal/relay/server.go:319-360 | A registration, from any state: the exact conditions under which the names are set, the seat taken, a displaced connection waited for, or an error sent. |
| `RelayAloneOthers.PublishAlone` | internal/relay/server.go:284-317 | A code is stored exactly for six digits from a registered device, with the lifetime asked for as far as the bounds allow. |
| `RelayAloneOthers.LinkAlone` | internal/relay/webshare.go:36-58 | A link is created as it was asked for, field by field, in view-control if and only if the device asked for that. |
| `RelayAloneOthers.ListingAlone` | internal/relay/webshare.go:141-157 | A listing drops exactly the revoked and expired links, whoever's they are. |
| `RelayAloneOthers.RevocationAlone` | internal/relay/webshare.go:79-110 | A revoke takes one link of the caller that it names, if there is one, and otherwise ends in an error. |
| `RelayAloneOthers.HeartbeatAlone` | internal/relay/webpeer.go:103-108 | A visitor's heartbeat is answered in kind, a device's changes nothing, one that does not decode is an error. |
| `RelayAloneOthers.OtherAlone` | internal/relay/server.go:279-281 | Every other kind of message, from a device or a visitor, comes to an error reply and nothing else, but for a heartbeat answer. |
| `RelayAloneOthers.VisitAlone` | internal/relay/webpeer.go:72-93 | A visitor with a link: if it is still good and the device online, the visitor is listed, its request on record in the link's mode, the device asked and the visitor told to wait; otherwise there is an error reply, and a link found revoked or expired is gone. |
| `RelayTearDown.TearDownAlone` | internal/relay/hub.go:46-74 | A tear-down takes the seat if it is still the connection's own, exactly the sessions and requests that name its id, and revokes exactly the links of a device; nothing else in the tables changes; every end still listed of a session that goes is told, with the reason for a device or a visitor, and nobody else. |
| `Registry.EndpointsOnlineInEveryInterleaving` | internal/relay/hub.go:21-108 | Any sequence of critical sections whatever keeps every stored session's endpoints registered, its mode proper and its input under view-control. |
| `Registry.CapacityInEveryInterleaving` | internal/relay/hub.go:28-31 | A positive client limit is never exceeded, in any sequence of sections. |
| `Registry.PendingOnlineBreaksIff` | internal/relay/hub.go:114-123 | That both ends of pending requests are registered is kept by every section except a store, and by that exactly if both ends still are: it holds per handler, not in every interleaving. |
| `Registry.HandOver` | internal/relay/hub.go:28-43 | After a displaced connection's tear-down the id belongs to the newcomer, exactly the sessions and requests naming it are gone, all its links are dead and all others untouched. |
| `Registry.TearDownSparesSessionsIff` | internal/relay/hub.go:46-74 | Tearing down a connection whose id another one holds keeps the sessions exactly when that id has none. |
| `Registry.NoticesPerRole` | internal/relay/hub.go:148-161 | Each endpoint registered is told once and nobody else. |
| `Registry.WithoutOneMore` | internal/relay/hub.go:46-74 | Tearing devices down one by one, in any order, comes to removing them all at once. |
| `PendingMap.KeyInjective` | internal/relay/hub.go:110-112 | The string key determines the pair when the first id has no NUL. |
| `PendingMap.KeyDeterminesPairIff` | internal/relay/hub.go:110-112 | A key stands for one pair only exactly when neither id contains NUL. |
| `PendingMap.LookupIsLatest` | internal/relay/hub.go:110-132 | For a pair of NUL-free ids the string-keyed map refines a map on pairs: over every run, whatever other ids contain, a lookup gives the last request stored for the pair unless consumed or dropped since. |
| `PendingMap.LookupIsLatestIff` | internal/relay/hub.go:110-132 | The lookup for a pair is right in every run if and only if neither of its ids contains NUL. |
| `AuthCode.IsSixDigitCode` | internal/relay/server.go:415-425 | True exactly for six decimal digits. |
| `AuthCode.CodeTtl` | internal/relay/server.go:298-304 | For every 64-bit ttl_ms, wrap-around included: ten minutes for nothing or less, thirty for more than that, and otherwise the lifetime asked for. |
| `AuthCode.SlotShape` | internal/relay/server.go:284-317 | Over every run the stored code is empty or six digits expiring at most thirty minutes after a publish. |
| `AuthCode.MatchAnswersPublish` | internal/relay/server.go:396-413 | Every match answers an earlier publish of the same code, in time, with no publish or match in between. |
| `AuthCode.MatchesBounded` | internal/relay/server.go:396-413 | Over every stretch of a run matches against a code outnumber publishes at most by the one stored when it began. |
| `AuthCode.WrongCodeKeepsSlot` | internal/relay/server.go:399-412 | A check leaves the slot as it is exactly when nothing is stored or the code is wrong but unexpired; it matches exactly when a code is stored, in time, and given. |
| `AuthCode.GateIff` | internal/relay/server.go:396-413 | Over every history: an attempt is let through if and only if no published code stands, or it gives, in time, the one that does; a code stands until the next publish, or an attempt that gives it or comes too late. |
| `AuthCode.TemporaryCodeBijection` | internal/auth/code.go:9-16 | Six-digit formatting is a bijection from [0, 10^6) onto the codes the relay accepts. |
| `WebShares.ShareTtl` | internal/relay/webshare.go:189-200 | For every 64-bit ttl_ms, wrap-around included: an hour for nothing or less, and otherwise the lifetime nearest to the one asked for between a minute and seven days. |
| `WebShares.LiveIsGranted` | internal/relay/webshare.go:119-172 | Lazy expiry refines an eager registry over every run, in whatever order the sections read the clock: the live links are those granted and unexpired, judged by the latest of the given reading and those of the look-ups and listings that ran since the link was created. |
| `WebShares.PurgesAreInvisible` | internal/relay/webshare.go:119-172 | Look-ups and listings may shrink the table but never change what is live, now or later. |
| `WebShares.AnswersFollowHistory` | internal/relay/webshare.go:119-156 | What look-ups and listings answer depends on the history of creations, revocations, disconnects and clock readings only, in whatever order sections read the clock. |
| `WebShares.FoundAsAsked` | internal/relay/webshare.go:36-139 | Over every history: a look-up finds a link if and only if one was created for the token, nothing has taken it back, it is not over by the reading that counts, and its device is online; and what it finds is as the device asked for it, field by field. |
| `WebShares.DeadStaysDead` | internal/relay/webshare.go:119-139 | Once dead, a token is dead in every continuation with fresh tokens, for all readings no earlier. |
| `WebShares.MetDeadStaysDead` | internal/relay/webshare.go:119-139 | Once a look-up has met it dead, no later look-up finds it, not even one that read the clock before. |
| `WebShares.DisconnectKillsLinks` | internal/relay/hub.go:68-73 | A disconnect kills exactly the links of that device. |
| `WebShares.RevokeRemovesOne` | internal/relay/webshare.go:91-107 | A revoke removes exactly one link, and one of the caller's. |
| `WebShares.RevokeAnswerDiffersIff` | internal/relay/webshare.go:91-107 | Over every history: the answer to a revoke differs from an eager registry's exactly when no matching link of the device is live, and some matching one it created has died by a disconnect or expiry with no later look-up or listing that removed it. |
| `WebShares.RevokeAfterDisconnect` | internal/relay/webshare.go:91-107 | A concrete history of it: create, disconnect, revoke. |
| `RelayServer.Client.TrySend` | internal/relay/client.go:91-101 | Appends unless the queue of 128 is full; an open connection with room always accepts. |
| `RelayServer.Client.ValidateAuthCode` | internal/relay/server.go:396-413 | Lets through if and only if no code is stored or the stored one is given in time; a code that is given or has expired is gone, and any other stays. |
| `RelayServer.Client.PublishAuthCode` | internal/relay/server.go:284-309 | Accepts exactly six digits from a registered device, and stores them with the bounded lifetime. |
| `RelayServer.Server.NotifySessionClosed` | internal/relay/hub.go:148-161 | Offers exactly the close notices of the session to the endpoints listed. |
| `RelayServer.Server.DropSessionsOf` | internal/relay/hub.go:56-62 | The loop over the session map removes exactly the sessions naming the id and notifies for each once, in some order. |
| `RelayServer.Server.DropPendingOf` | internal/relay/hub.go:63-67 | The loop removes exactly the requests naming the id. |
| `RelayServer.Server.RevokeSharesOf` | internal/relay/hub.go:68-73 | The loop revokes exactly the links of the device. |
| `RelayServer.Server.Unregister` | internal/relay/hub.go:46-74 | The tables become those of the tear-down function, and one notice per listed endpoint goes out for each session ended. |
| `RelayServer.Server.Close` | internal/relay/client.go:103-109 | The first close tears down, any later one changes nothing. |
| `RelayServer.Server.TakeSeat` | internal/relay/hub.go:27-39 | Capacity is checked before replacement; otherwise the id is the newcomer's and the displaced connection is reported. |
| `RelayServer.Server.Register` | internal/relay/hub.go:21-44 | Admission succeeds exactly with an id and below capacity; then the tables are the seated ones with the displaced connection torn down, unless it had been closed before, by the id it goes by. |
| `RelayServer.Server.CreateSession` | internal/relay/hub.go:88-108 | A session is stored exactly if both ends are online, under the fresh id, in the normalized mode, with input only under view-control. |
| `RelayServer.Server.ConsumePendingRequest` | internal/relay/hub.go:125-132 | Answers with the pair's request and takes it out. |
| `RelayServer.Server.TouchSession` | internal/relay/hub.go:140-146 | Changes the activity time of a stored session and nothing else. |
| `RelayServer.Server.HandleRegister` | internal/relay/server.go:319-339 | The id and names are set by every lawful register message, a second one of the same connection included, admitted or not; the tables change only on admission; connections that register once stay listed under their own ids. |
| `RelayServer.Server.HandleSessionRequest` | internal/relay/server.go:362-394 | All refusals leave the tables and queues alone; without a stored code, or with the stored one given in time, the request is stored and forwarded without its code, and with any other code it is refused; run without interruption it keeps both ends of pending requests registered. |
| `RelayServer.Server.AcceptSession` | internal/relay/server.go:451-495 | The pending request, if any, is consumed and decides the mode; then one session is stored and two announcements go out, all their fields given: the controlled side is the one to send its view; or none of these if the caller is not listed. |
| `RelayServer.RequestThenConfirm` | internal/relay/server.go:380-461 | For a pair of NUL-free ids, over every history of stores, consumes and drops: if the last that concerned the pair was a request, a confirm makes a session in its mode, with input exactly if the mode has it and the confirm grants it; otherwise the confirm alone decides; either way no request is left. |
| `RelayServer.Server.HandleSessionConfirm` | internal/relay/server.go:427-496 | Complete outcome of a confirm: refusals, declines forwarded to the requester, and new sessions with what each end is told, field by field. |
| `RelayServer.Server.ForwardSessionMessage` | internal/relay/server.go:498-526 | Forwards to the other end, restamped, and touches the session, or does nothing. |
| `RelayServer.Server.ForwardInputMessage` | internal/relay/server.go:528-540 | Forwards exactly if the session allows input and the sender is its controller. |
| `RelayServer.Server.ForwardStreamControlMessage` | internal/relay/server.go:542-551 | Forwards exactly if the sender is the controller. |
| `RelayServer.Server.ForwardWebMessage` | internal/relay/webpeer.go:173-210 | The same gates for a visitor, always toward the controlled device. |
| `RelayServer.Server.HandleSessionClose` | internal/relay/server.go:553-566 | Removes the session named, whoever asks, and tells its listed endpoints. |
| `RelayServer.Server.SendToPeer` | internal/relay/server.go:568-590 | Goes to the device of that id, else to the visitor, else nowhere. |
| `RelayServer.Server.HandleWebShareCreate` | internal/relay/webshare.go:36-58 | Stores one link of the caller as it was asked for, field by field: in view-control if and only if that was asked for, with the bounded lifetime, not revoked. |
| `RelayServer.Server.GetActiveWebShare` | internal/relay/webshare.go:119-139 | Answer and purge are those of the share machine; each refusal with the exact condition for it, and what is found is the stored link of an online device. |
| `RelayServer.Server.ListWebShares` | internal/relay/webshare.go:141-157 | The loop collects exactly the caller's live links and purges exactly the dead ones. |
| `RelayServer.Server.HandleWebShareRevoke` | internal/relay/webshare.go:79-110 | The loop stops at one revocable link of the caller and removes it, or there is none. |
| `RelayServer.Server.RequestControlledApproval` | internal/relay/webpeer.go:72-93 | A visitor is listed, its request stored and the device asked, exactly if its link is live and the device online. |
| `RelayServer.Server.UnregisterWebPeer` | internal/relay/webpeer.go:154-171 | The tables become those of the visitor tear-down, with the notices due. |
| `RelayServer.Server.IdleClients` | internal/relay/server.go:208-217 | The loop collects exactly the listed connections silent for longer than the timeout. |
| `RelayServer.Server.CloseIdleClients` | internal/relay/server.go:208-223 | Exactly the idle listed connections not closed before are torn down, one after the other; the tables are those after all of them, and the log has grown by the close notices of each one's sessions to the ends still listed then. |
| `RelayServer.ToldWithTheFirst` | internal/relay/server.go:208-223 | A session is told about when the first of its ends leaves, and at no other leave. |
| `RelayServer.LeaveTogether` | internal/relay/server.go:208-223 | When all are listed under their own ids, the tables do not depend on the order in which they leave. |
| `ClientRuntime.Client.ApproveSession` | internal/client/client.go:396-425 | Sends nothing without a pending request; grants input only if the request asked and the option allows; clears the slot if the answer was written. |
| `ClientRuntime.Client.RejectSession` | internal/client/client.go:427-448 | Declines to the pending requester with a reason and clears the slot. |
| `ClientRuntime.Client.HandleSessionRequest` | internal/client/client.go:955-983 | An answer goes out, and is an accepting one, if and only if the sender is trusted or the user accepts all, the request has a sender and the connection takes it; otherwise the request waits in place of the one before. |
| `ClientRuntime.Client.HandleSessionReady` | internal/client/client.go:790-821 | The session on record is the announced one; the stream loop is started or stopped accordingly. |
| `ClientRuntime.Client.HandleMessage` | internal/client/client.go:704-883 | Session, pending request, envelopes sent and stream action after any message are those of the specification: a close ends whatever session there is, stream control restarts the loop of a session whose view is sent, and registration sends the request the user's options name. |
| `ClientRuntime.Client.MarkDisconnected` | internal/client/client.go:610-618 | The session is gone, the pending request stays. |
| `ClientRuntime.AnswersAreConsented` | internal/client/client.go:396-425 | Every answer goes to the requester just put on record and grants input only if that very request asked for it and the user enabled it; a request of its own goes out on registration only, to the device named. |
| `ClientRuntime.NoRequestAnsweredTwice` | internal/client/client.go:955-983 | Over every run answers never outnumber requests, one that waits from before included. |
| `ClientRuntime.AnsweredIff` | internal/client/client.go:955-983 | Over every run: an accepting answer goes out at an act if and only if it is the user's approval, or the receipt of a request as trusted or while the user accepts all, and there is a request to answer; a declining one if and only if the user rejects one that waits. It goes to the sender of that request, in its mode, with input exactly if it asked for it and the option is on. |
| `ClientRuntime.SessionOfLastReady` | internal/client/client.go:790-872 | Over every run the session on record is that of the last announcement if no close and no disconnect came after it, and there is none otherwise. |
| `ClientRuntime.StreamFollowsSession` | internal/client/client.go:939-953 | Over every run the stream loop last started and not stopped is that of the session on record, and there is one exactly if this side is to send its view. |
| `EndToEnd.WorldRunsKeepInvariant` | internal/client/client.go:955-983 | What clients record, wait for and have said stays justified by the relay's log in every run of relay and clients together. |
| `EndToEnd.Agreement` | internal/client/client.go:790-821 | Two different connections with the same session on record agree on mode and input flag, have opposite roles, name each other's device, and exactly the one with role controlled sends its view. |
| `EndToEnd.InputWasConsented` | internal/client/client.go:396-425 | A session with input on record at a client means that the controlled client's user had enabled input when it answered, and that the request it answered had been offered before to that very connection or to one before it of the same client from which it still waited; it came from the controller, was for this device, and asked for input. |
| `EndToEnd.SessionWasConsented` | internal/client/client.go:955-983 | Every session, with input or without, that a client's connection confirmed: the answer was sent at an act of that client that is an approval by its user, or the receipt of a request as trusted or while the user accepts all, and answers a request offered before to that client. |
| `EndToEnd.StreamsAsControlled` | internal/client/client.go:939-953 | A client's stream loop runs for a session if and only if that session is on its record with this side as the controlled end; then the relay created it with this device as the controlled one. |
| `EndToEnd.InjectedInputIsAuthorized` | internal/client/client.go:885-937 | What a client injects came under the id of the controller of a session with input allowed of which the device is the controlled end, and was consented to as above. |
| `EndToEnd.InjectedOnRecordIff` | internal/client/client.go:885-937 | The session of injected input is the one on record if and only if its announcement was heard and after it no other announcement, no close and no disconnect. |
| `EndToEndScenes.InjectsOffRecord` | internal/client/client.go:885-937 | A concrete run in which a client injects input with no session on record. |
| `EndToEnd.OtherModeCarriesNoInput` | internal/relay/server.go:451-458 | A session's mode is the approved one exactly if no request was consumed or the consumed one had that mode; a session in another mode carries no input. |
| `Limiter.BandwidthLimiter.constructor` | internal/relay/limiter.go:22-28 | A new limiter starts with a full bucket. |
| `Limiter.BandwidthLimiter.ReserveDelay` | internal/relay/limiter.go:50-70 | New level, time and delay are those of the bucket function; a failed attempt empties the bucket. |
| `Limiter.BandwidthLimiter.Wait` | internal/relay/limiter.go:30-48 | The retry loop comes to the recursive retry over the clock readings; no limit or no bytes pass at once. |
| `Limiter.AdmittedIff` | internal/relay/limiter.go:62-69 | An attempt passes exactly if less than one nanosecond's worth of tokens is missing. |
| `Limiter.StaysValid` | internal/relay/limiter.go:54-69 | Tokens stay within [0, burst]. |
| `Limiter.WindowBound` | internal/relay/limiter.go:30-70 | In every window the bytes let through are at most the burst plus rate times length plus one nanosecond's worth per admission. |
| `Limiter.EverAdmittedIff` | internal/relay/limiter.go:50-69 | A message can pass at all if and only if it exceeds the burst by less than a nanosecond's worth. |
| `Limiter.OversizedNeverAdmitted` | internal/relay/limiter.go:35-47 | Up to 10^9 B/s no message longer than the burst ever passes, under any clock. |
| `Limiter.RetryRecurrence` | internal/relay/limiter.go:35-69 | The exact level found by a retry that wakes up late, truncation residue included. |
| `Limiter.RetryAdmittedIff` | internal/relay/limiter.go:35-69 | The retry passes exactly if the message fits the burst and the wake-up was late by what was thrown away, both up to a nanosecond's worth, with the truncation residue given exactly. |
| `Limiter.OnTimeNeverAdmitted` | internal/relay/limiter.go:35-47 | With timers that fire on time the delays alternate for ever and the message never passes. |
| `Limiter.OnTimeAdmittedIff` | internal/relay/limiter.go:35-47 | From any bucket: with timers on time a message within the burst that must wait passes if and only if the level found is at most what truncating its full delay leaves over, less than a nanosecond's worth. |
| `StreamLoops.RunsKeepOwnership` | internal/client/client.go:265-311 | The ownership invariant of cancel handles holds in every interleaving of starts and stops. |
| `StreamLoops.EveryContextIsOwned` | internal/client/client.go:265-311 | Every context not cancelled is the registered one or held by exactly one goroutine: its creator before publishing, or one that cancels it next. |
| `StreamLoops.AtMostOneLoop` | internal/client/client.go:265-311 | When no start or stop is under way at most one context is not cancelled, the registered one. |
| `StreamLoops.AtMostOneLoopIff` | internal/client/client.go:265-311 | In every reachable state all contexts not cancelled coincide if and only if the registered handle and those that goroutines hold come to at most one that is not cancelled. |
| `StreamLoops.NoSecondLaunch` | internal/client/client.go:289-292 | No context gets two loops, so its end is signalled at most once. |
| `StreamLoops.CancelledIff` | internal/client/client.go:265-311 | A context is cancelled if and only if the start whose publish displaced it, the stop that took it, or its own start giving up has cancelled it: no publish and no returning loop cancels anything. |
| `StreamLoops.RunningIff` | internal/client/client.go:265-311 | In every interleaving a loop runs exactly from its launch until it returns, whatever is cancelled. |
| `StreamLoops.LaunchedOrCancelled` | internal/client/client.go:265-293 | In every interleaving a context that is neither launched nor cancelled has a goroutine that will do one of the two, so when no start or stop is under way every one has been launched or cancelled. |
| `StreamLoops.TwoLoopsWhileStopping` | internal/client/client.go:265-311 | Concrete run: two uncancelled loops at once while a stop is under way. |
| `AdaptiveLoop.Capturer.SetQuality` | internal/desktop/capture_windows.go:114-122 | The capturer's quality becomes the nearest one in [20, 90], hence the one asked for exactly if that lies in the range. |
| `AdaptiveLoop.StreamLoop.AdjustCaptureQuality` | internal/client/client.go:1170-1200 | The next quality is that of the decision function, and the capturer is told exactly on a change. |
| `AdaptiveLoop.StreamLoop.AdjustCaptureFps` | internal/client/client.go:1202-1235 | Within [1, chosen] the rate moves by at most one and stays there: down exactly when congested and above one, up exactly when healthy and below the chosen rate. |
| `AdaptiveLoop.StreamLoop.FrameSent` | internal/client/client.go:1062-1070 | After each frame quality, rate, capturer and ticker are those of the loop function. |
| `AdaptiveLoop.NeverBoth` | internal/client/client.go:1218-1219 | No measurements are congested and healthy at once, nor over the limit and below its slack. |
| `AdaptiveLoop.StaysInBand` | internal/client/client.go:1170-1242 | Under any measurements the rate stays in [1, chosen] and the quality in [min(chosen, 21), chosen + 1]. |
| `AdaptiveLoop.OverloadSettlesQuality` | internal/client/client.go:1178-1181 | After any run, under lasting overload the quality falls by fives to at most 25 in a computed number of frames and stays. |
| `AdaptiveLoop.SlackRestoresQuality` | internal/client/client.go:1181-1183 | After any run, under lasting slack it rises by twos to the chosen one, or one above, in a computed number of frames and stays. |
| `AdaptiveLoop.CongestionSettlesFps` | internal/client/client.go:1218-1224 | After any run, lasting congestion reaches one frame per second, one step per frame. |
| `AdaptiveLoop.HealthRestoresFps` | internal/client/client.go:1219-1227 | After any run, lasting health reaches the chosen rate, one step per frame. |
| `AdaptiveLoop.ActualIsTrackedIff` | internal/desktop/capture_windows.go:69-122 | For each choice of options: the capturer always has the quality the loop tracks if and only if the chosen quality is positive and either there is no bitrate limit, or it is at most 89, or the limit is one kilobit and it is at most 95. |
| `AdaptiveLoop.DriftsFrom90` | internal/desktop/capture_windows.go:114-122 | Concrete measurements after which, from 90 on, the two differ, for any limit of at least two kilobits. |
| `AdaptiveLoop.DriftsFrom96` | internal/desktop/capture_windows.go:114-122 | From 96 on, and for any limit, one overloaded frame is enough. |
| `ChangeDetector.Detector.Observe` | internal/desktop/change_detector.go:21-40 | Decision and memory are those of the detector function. |
| `ChangeDetector.HashFrame` | internal/desktop/change_detector.go:49-59 | The feeding of the hasher comes to the hash of width, height, codec and data in this order. |
| `ChangeDetector.LittleEndianStandsFor` | internal/desktop/change_detector.go:49-59 | The eight bytes hashed for a size stand for it modulo 2^64, lowest first. |
| `ChangeDetector.TestVectors` | internal/desktop/change_detector.go:49-59 | The hash gives the published 64-bit FNV-1a values for no byte and for one. |
| `ChangeDetector.ReceiverKeepsUp` | internal/desktop/change_detector.go:21-40 | After every frame the last one sent has the hash of the current one, and the detector remembers its hash and time. |
| `ChangeDetector.SentIff` | internal/desktop/change_detector.go:27-39 | A frame is sent if and only if its hash differs from the one before or an interval has passed since the last one sent. |
| `ChangeDetector.FoldInjective` | internal/desktop/change_detector.go:49-59 | Hashing the same bytes never brings two different hash states together. |
| `ChangeDetector.OneByteIsSent` | internal/desktop/change_detector.go:49-59 | A frame in which one byte of the picture changed is always sent. |
| `ChangeDetector.RunTogetherIsSuppressed` | internal/desktop/change_detector.go:49-59 | A different frame whose codec and data run together to the same bytes is taken for a repetition. |
| `PointerMapping.HandleRemoteInput` | cmd/client-windows/remote.go:154-196 | The event loop sends just the translated events, and fails where it divides by zero. |
| `PointerMapping.SendsExactly` | cmd/client-windows/remote.go:154-196 | With input allowed and a frame that is not empty, one mouse event goes out for each event inside the frame and each scroll, in order, with its button, action and position scaled to source pixels, and nothing else; otherwise nothing. |
| `PointerMapping.HandledCrashesIff` | cmd/client-windows/remote.go:172-179 | The loop fails if and only if input is allowed, the frame is empty and a scroll event occurs. |
| `PointerMapping.FitsInside` | cmd/client-windows/remote.go:224-237 | The fitted frame lies inside the area, fills one dimension, has an aspect error below one source unit and is centered up to a pixel. |
| `PointerMapping.FitIsEmptyIff` | cmd/client-windows/remote.go:224-237 | The exact condition under which the fitted frame is empty. |
| `PointerMapping.ScaleInRange` | cmd/client-windows/remote.go:179-180 | Positions map to source pixels in range, in order, from the first. |
| `PointerMapping.AllPixelsReachableIff` | cmd/client-windows/remote.go:179-180 | Every source pixel can be pointed at if and only if the frame is at least as long as the source. |
| `PointerMapping.NormalizeFailsIff` | internal/input/input_windows.go:154-170 | The division by zero happens exactly for an effective size of at most one. |
| `PointerMapping.NormalizeInRange` | internal/input/input_windows.go:154-170 | From two pixels up: in [0, 65535], in order, first and last pixel at the ends. |
| `PointerMapping.NormalizeInjectiveIff` | internal/input/input_windows.go:154-170 | Different source pixels stay different exactly up to 65536 of them. |
| `PointerMapping.PipelineInRange` | cmd/client-windows/remote.go:154-196 | From a pointer inside the frame to injected coordinates: no failure, in range at both stages, monotone. |
| `Protocol.NormalizeMode` | internal/protocol/types.go:48-57 | The result is one of the two modes, and view-control only for view-control. |
| `Protocol.WrapInt64` | internal/relay/server.go:298-298 | Two's-complement wrap-around: congruent modulo 2^64 and in range. |

## Hypotheses

- Random session ids, link tokens and visitor ids are fresh, and no device
  registers under the id of a visitor.  Theorems about dead links ask for tokens
  that are fresh over the whole run.
- A connection does not register again once it has a device id; otherwise one
  connection can sit under two keys.

## Left out

- Sockets, TLS, WebSocket upgrade, HTTP pages and scripts: a connection is an identity with a queue and the messages its reader takes.
- JSON: payloads are decoded values, and one that does not decode is a single malformed value; sizes and read limits are not part of the model.
- Replies the relay writes to a connection directly, past its queue (registered, code published, link created, listed or revoked, heartbeat to a device): the model leaves them out, as they change no table and enter no session.
- The texts of error replies: the model has one for all, where the program gives the cause, and a code of its own for visitors.
- A failing write inside such a reply, which turns a finished handler into an error reply.
- A visitor whose first request fails is disconnected by the program; the interleaving model lets it go on sending, which only adds runs.
- A send on a closed connection whose queue has room may be accepted or not; both are allowed.
- Session records as shared objects: a session is a value in the table, since what handlers read of one after unlocking never changes; the activity time, which does, is read nowhere.
- Trimming of a link's label, the order of a listing by creation time, and the URL of a link.
- Write deadlines of ten seconds and the end of a connection's write loop after one: a write loop may stop taking messages at any time.
- The wiring of the limiter into the write loop: the limiter is modelled on its own, with clock readings as inputs, and its token count as a real number instead of a 64-bit float.
- Liveness: timers and the scheduler are inputs; nothing is claimed to happen eventually.
- Audit and trust files, configuration, identity files, reconnect back-off, update check, user interface: the result of a trust look-up is an input.
- Approval of a request is one step; the program reads the pending slot field by field, so a request that arrives in between could be answered with fields of both.
- Options changing while a stream runs: the feedback loop is modelled for fixed options, the client's handlers for one snapshot each.
- Screen capture, JPEG encoding, input injection and screen metrics: only the clamp of the quality and the arithmetic of coordinates are modelled, on unbounded integers; pointer positions are taken after truncation to whole pixels.
- Mouse buttons, wheel and key translation of the injector.
- Pending requests by age: the program stores when a request was made but never reads it.
- RelayServer.Client.TrySend: an open choice on a closed connection stands for the race between its two ready cases.
